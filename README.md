# Kanban CRM core, modelled in Dafny

This project models the core rules of a multi-tenant Kanban CRM. Every
customer organisation is a *client*. Its users own *boards*. A board is
split into ordered *stages* (columns), and the stages hold *cards*, the
leads. A client also keeps *contacts*, *tags*, *custom fields* and *API
keys*. A super-admin manages clients and subscription *plans*.

The model covers these parts:

- **Server actions.** Reads, inserts, updates and deletes on the tables,
  each scoped to the caller's client where the code scopes it.
- **Kanban ordering.** The drag-and-drop decision, and the
  "maximum position + 1, or 0" rule for appending cards and stages.
- **Public API.** The bearer-key board listing: `fbn_` keys, stored only
  as a hash, and revocable.
- **Dashboard.** Counts per status, the leads-per-day histogram and the
  conversion rate.
- **Middleware.** The request gate that sends visitors to the login page
  or to the dashboard.
- **Client-side helpers.** The Brazilian phone mask, the tag toggle, the
  card-editing form, the password form and the role-filtered sidebar.

How the model is built:

- **Tables** are classes whose fields are sequences of rows, in
  insertion order. `Valid()` says the primary keys are distinct. Every
  write method states the whole new table in terms of the old one.
- **Queries** are `Filter` and `Sort` over those sequences. The sort is
  specified as sorted and a permutation of the filtered rows.
- **The signed-in caller** is a `Session`: the user returned by the auth
  lookup and the profile row, either of which may be missing.
- **External events are parameters.**
  - A datastore error is a boolean such as `insertFails`.
  - The datastore-generated id and the current time are arguments.
  - The random bytes and SHA-256 are arguments.
  - The organisation-provisioning RPC is an argument returning an
    `RpcOutcome`.
- **Timestamps** are integers in milliseconds. A day is
  `createdAt / 86400000`, which is the UTC calendar day of an ISO
  timestamp.

## Model

| member | source | states |
|---|---|---|
| Types.ClientOf | lib/actions/tags.ts:43-47 | the caller check of the scoped actions: no user gives the "not signed in" message ("Unauthorized" in the contact, field and tag actions, "Não autenticado" for API keys); a user without a profile or client id gives the "no profile" message ("Profile not found" / "Perfil não encontrado"); success exactly when both exist, yielding the non-empty client id |
| Types.LexLeTotal | lib/actions/tags.ts:23 | the name order used by `order("name")` is total, so sorting by it is well defined |
| KanbanBoard.FlattenMembers | components/boards/kanban-board.tsx:55 | a card is in the flattened list iff some stage holds it |
| KanbanBoard.DragStart | components/boards/kanban-board.tsx:53-57 | the card found has the dragged id and lies in some stage; none is found only when no stage holds that id |
| KanbanBoard.DragEnd | components/boards/kanban-board.tsx:59-98 | no drop target gives no move; every move is for the dragged card, whose stage exists, and targets an existing stage with 0 <= position <= that stage's card count |
| KanbanBoard.DragEndNoTarget | components/boards/kanban-board.tsx:69-71 | when no stage has the drop id and no stage holds a card with it, no move is issued |
| KanbanBoard.DragEndNoSource | components/boards/kanban-board.tsx:74-76 | when no stage holds the dragged card, no move is issued |
| KanbanBoard.DragEndOwnHeaderIsNoop | components/boards/kanban-board.tsx:79 | dropping a card on the header of its own stage issues no move |
| KanbanBoard.DragEndOnHeaderAppends | components/boards/kanban-board.tsx:83-85 | dropping on another stage's header moves the card there at position = that stage's card count (append) |
| KanbanBoard.DragEndOnCardUsesIndex | components/boards/kanban-board.tsx:69-89 | dropping on a card moves the dragged card into the first stage holding it, at that card's list index |
| KanbanBoard.SlotIndexBreaksOrder | components/boards/kanban-board.tsx:87-89 | concrete board where the list index sent as the position puts the moved card out of position order, while the corrected decision sends the target card's stored position |
| KanbanBoard.DragEndIntended | components/boards/kanban-board.tsx:59-98 | issues a move exactly when the code does, for the same card and stage |
| KanbanBoard.IntendedPositionKeepsOrder | components/boards/kanban-board.tsx:87-89 | in a stage whose positions ascend, placing the card at the corrected slot and position keeps the positions ascending (non-strictly: the card ties with the one dropped on) |
| Cards.Positions | lib/actions/cards.ts:23-28 | one position per card, in the cards' order, so the positions listed are exactly those of the given cards |
| Cards.StagePositions | lib/actions/cards.ts:23-28 | the positions listed are exactly those of the cards in the given stage |
| Cards.NextPosition | lib/actions/cards.ts:30 | 0 for a stage with no cards, otherwise one more than an existing position, and above every existing position |
| Cards.AppendedCardIsLast | lib/actions/cards.ts:23-30 | every card already in the stage has a position below the new card's |
| Cards.NextPositionIgnoresOtherStages | lib/actions/cards.ts:26 | cards of other stages have no influence on the next position |
| Cards.Moved | lib/actions/cards.ts:84-87 | the card with the id gets the new stage and position; every other row is unchanged |
| Cards.MoveRenumbersNoSibling | lib/actions/cards.ts:84-87 | after a move, the other cards of any stage are exactly the same rows in the same order |
| Cards.MovePlacesCard | lib/actions/cards.ts:84-87 | after a move, the card is in the target stage at the given position and every other card is still present |
| Cards.CardTable.constructor | lib/types.ts:55-67 | an empty cards table |
| Cards.CardTable.CreateCard | lib/actions/cards.ts:6-52 | no user gives "Unauthorized" and no write; a failed insert writes nothing; otherwise one row is appended with the caller as creator, the given board, stage and status, at the stage's next position, or at 0 when the unchecked max-position select fails |
| Cards.CardTable.UpdateCard | lib/actions/cards.ts:54-69 | only title, description, phone, email and status of the card with the id change; stage, position, board and creator stay |
| Cards.CardTable.DeleteCard | lib/actions/cards.ts:71-79 | exactly the rows with that id are removed, the others kept in order |
| Cards.CardTable.MoveCard | lib/actions/cards.ts:81-92 | the table becomes `Moved` of the old one, so only that card's stage and position change |
| Stages.CardBeforeTotal | lib/actions/stages.ts:18-21 | the card order by position is total |
| Stages.StageBeforeTotal | lib/actions/stages.ts:13 | the stage order by position is total |
| Stages.StagesOf | lib/actions/stages.ts:18-21 | the stage parts of the result, one per entry, in order |
| Stages.SortedCards | lib/actions/stages.ts:18-21 | the stage's cards ascending by position, a permutation of the card rows of that stage |
| Stages.GetStagesWithCards | lib/actions/stages.ts:6-22 | empty on a query error; otherwise exactly the board's stages (as a multiset) ascending by position, each holding a position-sorted permutation of its own cards |
| Stages.Nest | lib/actions/stages.ts:18-21 | keeps the stage order and attaches each stage's sorted cards |
| Stages.NestedCardsBelong | lib/actions/stages.ts:9-21 | a card is listed under a stage iff it is a card row whose stage id is that stage's |
| Stages.StagePositions | lib/actions/stages.ts:28-33 | exactly the positions of the board's stages |
| Stages.StageTable.constructor | lib/types.ts:45-53 | an empty stages table |
| Stages.StageTable.CreateStage | lib/actions/stages.ts:24-52 | one row appended on the board at 0 for a board without stages, else max position + 1, and at 0 whenever the unchecked max-position select fails; a failed insert writes nothing |
| Stages.StageTable.InsertAll | lib/actions/boards.ts:103-108 | a batch insert appends the rows in order and keeps ids distinct |
| Stages.StageTable.UpdateStage | lib/actions/stages.ts:54-62 | only name and color of the stage with the id change |
| Stages.StageTable.DeleteStage | lib/actions/stages.ts:64-72 | exactly the stage rows with that id are removed |
| Boards.NewerFirstTotal | lib/actions/boards.ts:18 | the newest-first board order is total |
| Boards.GetBoards | lib/actions/boards.ts:6-26 | empty without a user, a profile, or on a query error; otherwise a permutation of the boards the profile may see, newest first |
| Boards.GetBoardsScopedToClient | lib/actions/boards.ts:20-22 | for a non-super-admin with a client id, a board is listed iff it belongs to that client |
| Boards.GetBoardsSuperAdminSeesAll | lib/actions/boards.ts:20 | a super admin sees every board |
| Boards.GetBoardsUnscopedWithoutClient | lib/actions/boards.ts:20 | a profile without a client id is not filtered |
| Boards.LocalPart | lib/actions/boards.ts:52 | the email up to its first '@' (all of it when there is none): a prefix holding no '@' |
| Boards.OrganizationName | lib/actions/boards.ts:52 | the non-empty full name, otherwise the email's local part (`LocalPart`, an '@'-free prefix) followed by "'s Organization" |
| Boards.LocalPartOfAddress | lib/actions/boards.ts:52 | the local part of `local@domain` is `local` |
| Boards.OrganizationNameFromEmail | lib/actions/boards.ts:52 | without a full name, the organisation of `local@domain` is named `local's Organization` |
| Boards.ResolveClient | lib/actions/boards.ts:48-73 | an existing client id is kept; otherwise the RPC's non-empty id is used; an RPC error or a missing id fails with "Failed to create organization: ..." |
| Boards.DefaultStages | lib/actions/boards.ts:96-108 | exactly four stages New, Contacted, Qualified, Converted at positions 0 to 3 on the new board, in position order |
| Boards.NewBoardColumns | lib/actions/boards.ts:96-108 | reading a freshly created board back gives exactly the four default stages, in that order |
| Boards.NewBoardNextStagePosition | lib/actions/stages.ts:28-35 | the next stage added to a fresh board gets position 4 |
| Boards.BoardTable.constructor | lib/types.ts:35-43 | an empty boards table |
| Boards.BoardTable.CreateBoard | lib/actions/boards.ts:28-116 | "Unauthorized" without a user, "Profile not found" without a profile, the provisioning error as is, no write on any error; otherwise the board row with the resolved client and the caller as creator, plus the four default stages unless their insert fails, in which case the board is still returned |
| Boards.BoardTable.DeleteBoard | lib/actions/boards.ts:118-126 | exactly the board rows with that id are removed |
| ApiKeys.HexDigit | lib/actions/api-keys.ts:24 | the character is a lower-case hex digit |
| ApiKeys.HexValue | lib/actions/api-keys.ts:24 | inverse of `HexDigit` on hex digits |
| ApiKeys.HexValueOfDigit | lib/actions/api-keys.ts:24 | `HexValue` undoes `HexDigit` |
| ApiKeys.Hex | lib/actions/api-keys.ts:24 | two lower-case hex digits per byte |
| ApiKeys.UnHex | lib/actions/api-keys.ts:24 | a decoding, when it succeeds, has half as many bytes as characters |
| ApiKeys.UnHexHex | lib/actions/api-keys.ts:24 | hex encoding round-trips: decoding the hex of any bytes gives them back |
| ApiKeys.KeyFromBytes | lib/actions/api-keys.ts:24 | a key is "fbn_" followed by 64 hex digits, 68 characters long |
| ApiKeys.KeyFromBytesInjective | lib/actions/api-keys.ts:24 | different random bytes give different keys |
| ApiKeys.KeyPrefix | lib/actions/api-keys.ts:26 | a prefix of the key of length min(12, length of the key) |
| ApiKeys.GeneratedPrefix | lib/actions/api-keys.ts:24-26 | a generated key's stored prefix has 12 characters, starts with "fbn_" and is not the whole key |
| ApiKeys.KeyNewerFirstTotal | lib/actions/api-keys.ts:65 | the newest-first key order is total |
| ApiKeys.GetApiKeys | lib/actions/api-keys.ts:44-72 | the caller checks' errors; "Erro ao buscar chaves de API" on a query error; otherwise a permutation of the caller client's unrevoked keys, newest first |
| ApiKeys.GetApiKeysExactly | lib/actions/api-keys.ts:60-65 | a key is listed iff it is the caller client's and not revoked |
| ApiKeys.Revoked | lib/actions/api-keys.ts:84 | only the rows with that id get `revokedAt`, whichever client owns them |
| ApiKeys.RevokedKeyNotListed | lib/actions/api-keys.ts:64-84 | after revocation the key is not listed, and the listing of every other key is unchanged |
| ApiKeys.ApiKeyTable.constructor | lib/actions/api-keys.ts:28-38 | an empty api_keys table |
| ApiKeys.ApiKeyTable.GenerateApiKey | lib/actions/api-keys.ts:7-42 | the caller errors or "Erro ao criar chave de API" with no write; otherwise returns the full key and appends a row holding only its hash and prefix, the caller's client and the caller as creator |
| ApiKeys.ApiKeyTable.RevokeApiKey | lib/actions/api-keys.ts:74-91 | "Não autenticado" without a user, "Erro ao revogar chave de API" on failure, otherwise the table becomes `Revoked` of the old one |
| BoardsApi.ParseBearer | app/api/v1/boards/route.ts:28-33 | a key is found iff the header exists and starts with "Bearer ", and the header is "Bearer " followed by that key |
| BoardsApi.ParseBearerRoundTrip | app/api/v1/boards/route.ts:33 | "Bearer " + k parses to k |
| BoardsApi.Lookup | app/api/v1/boards/route.ts:7-18 | a row is found iff the lookup succeeds and exactly one unrevoked row has the key's hash; it is that row |
| BoardsApi.RevokedKeyRejected | app/api/v1/boards/route.ts:13 | a key whose rows are all revoked is rejected |
| BoardsApi.GeneratedKeyAccepted | app/api/v1/boards/route.ts:7-18 | a freshly stored, unrevoked key whose hash no other live row shares is accepted, and its bearer header parses back to it |
| BoardsApi.Touched | app/api/v1/boards/route.ts:21 | only the rows with that id get `lastUsedAt` |
| BoardsApi.ClientBoards | app/api/v1/boards/route.ts:41-45 | a permutation of the client's boards, newest first |
| BoardsApi.ClientBoardsExactly | app/api/v1/boards/route.ts:44 | a board is listed iff it belongs to the key's client |
| BoardsApi.Project | app/api/v1/boards/route.ts:43 | one summary per board, in order, holding id, name, description and creation time |
| BoardsApi.ValidateApiKey | app/api/v1/boards/route.ts:5-24 | returns the looked-up row; only that row's last use changes, and nothing changes when no row is found |
| BoardsApi.Get | app/api/v1/boards/route.ts:26-55 | 401 "API key não fornecida" without a bearer header, before anything can throw; 500 "Erro interno do servidor" on an exception inside key validation, with no write; 401 "API key inválida" for an unknown or revoked key, with no write; once the key is found its `last_used_at` is stamped (unless that update fails), and then 500 "Erro interno do servidor" on a later exception, 500 "Erro ao buscar quadros" on a boards query error, otherwise 200 with the key client's boards newest first |
| Dashboard.ClientBoardIds | lib/actions/dashboard.ts:28-33 | the ids of the client's boards, none when the boards query fails |
| Dashboard.InScopeExactly | lib/actions/dashboard.ts:28-34 | for a non-super-admin with a client id, a card counts iff it is on one of that client's boards |
| Dashboard.WindowCards | lib/actions/dashboard.ts:21-39 | exactly the in-scope cards created within the last `days` days, both ends inclusive |
| Dashboard.StatusCountsBounded | lib/actions/dashboard.ts:56-61 | the five status counts add up to at most the number of cards |
| Dashboard.ConversionRate | lib/actions/dashboard.ts:62 | 0 when there are no leads; between 0 and 100; 100 iff all leads converted; 0 iff none did |
| Dashboard.DayCountSnoc | lib/actions/dashboard.ts:65-69 | one more card adds one to its own day's count only |
| Dashboard.DayCountPositive | lib/actions/dashboard.ts:65-69 | a day has a count of at least 1 iff some card falls on it |
| Dashboard.Histogram | lib/actions/dashboard.ts:65-69 | its keys are exactly the days that occur, each mapped to the number of cards created that day |
| Dashboard.HistogramStep | lib/actions/dashboard.ts:66-68 | each step of the loop bumps the count of the current card's day |
| Dashboard.GroupByDay | lib/actions/dashboard.ts:64-69 | the loop's dictionary equals the histogram |
| Dashboard.IntLeTotal | lib/actions/dashboard.ts:73 | the day order is total |
| Dashboard.SortedIntsInOrder | lib/actions/dashboard.ts:73 | a sorted sequence of days is ascending pairwise |
| Dashboard.Dedup | lib/actions/dashboard.ts:71-73 | strictly ascending, with the same values as its sorted input |
| Dashboard.DayKeys | lib/actions/dashboard.ts:67 | the day of each card, in order |
| Dashboard.Days | lib/actions/dashboard.ts:71-73 | each day that occurs, once, ascending |
| Dashboard.Entries | lib/actions/dashboard.ts:71-72 | one entry per given day, with that day's count |
| Dashboard.LeadsOverTime | lib/actions/dashboard.ts:65-73 | strictly ascending days, exactly those that occur, each with its card count, which is at least 1 |
| Dashboard.TotalCountSnoc | lib/actions/dashboard.ts:65-73 | one more card raises the total by one iff its day is listed |
| Dashboard.TotalCountNoCards | lib/actions/dashboard.ts:65-73 | without cards every count is 0 |
| Dashboard.TotalCountCovers | lib/actions/dashboard.ts:65-73 | when all cards' days are listed, the counts add up to the number of cards |
| Dashboard.LeadsOverTimeSumsToTotal | lib/actions/dashboard.ts:65-73 | the histogram's counts add up to totalLeads |
| Dashboard.EntriesFromCounts | lib/actions/dashboard.ts:71-72 | one entry per day, with the count the dictionary holds |
| Dashboard.GetDashboardStats | lib/actions/dashboard.ts:6-95 | none without a user or profile; all zero without card data; otherwise the window's card count, the per-status counts (adding up to at most the total), the conversion rate, the day histogram and the five status entries in fixed order |
| Dashboard.CardNewerFirstTotal | lib/actions/dashboard.ts:112 | the newest-first card order is total |
| Dashboard.GetRecentLeads | lib/actions/dashboard.ts:97-124 | empty without a user, a profile or on a query error; at most `limit` in-scope cards, newest first |
| Dashboard.SortedCardsInOrder | lib/actions/dashboard.ts:112 | a newest-first list is pairwise non-increasing in creation time |
| Dashboard.RecentLeadsAreNewest | lib/actions/dashboard.ts:109-120 | an in-scope card left out of the recent list means the list is full and every listed card is at least as new |
| Contacts.TagRows | lib/actions/contacts.ts:97-103 | one contact-tag row per given tag id, in order |
| Contacts.ValueRows | lib/actions/contacts.ts:106-117 | one custom-value row per entry with a non-empty value, in order |
| Contacts.ValueRowsSkipEmpty | lib/actions/contacts.ts:106-117 | no row at all when every value is empty |
| Contacts.ReplaceTagLinks | lib/actions/contacts.ts:138-145 | after delete-then-insert, the contact's links are exactly the inserted ones and other contacts' links are untouched |
| Contacts.ReplaceValueLinks | lib/actions/contacts.ts:148-160 | the same for custom values |
| Contacts.ContactNewerFirstTotal | lib/actions/contacts.ts:27 | the newest-first contact order is total |
| Contacts.GetContacts | lib/actions/contacts.ts:6-39 | empty without a user or client id, or on a query error; otherwise a permutation of the caller client's contacts, newest first |
| Contacts.GetContactsExactly | lib/actions/contacts.ts:19-27 | a contact is listed iff it belongs to the caller's client |
| Contacts.GetContact | lib/actions/contacts.ts:41-62 | "Unauthorized" without a user; an error on a query error or a missing row; otherwise the row with that id, of whatever client |
| Contacts.GetContactFindsAny | lib/actions/contacts.ts:49-57 | any existing contact is returned by id, without a client check |
| Contacts.FieldNameLeTotal | lib/actions/contacts.ts:192 | the name order of custom fields is total |
| Contacts.GetCustomFields | lib/actions/contacts.ts:175-204 | empty without a user or client id, or on a query error; otherwise a permutation of the caller client's fields, by name |
| Contacts.GetCustomFieldsExactly | lib/actions/contacts.ts:188-192 | a field is listed iff it belongs to the caller's client |
| Contacts.Edited | lib/actions/contacts.ts:133-135 | only name, phone and email of the contact with the id change |
| Contacts.UpdateReplacesLinks | lib/actions/contacts.ts:137-160 | after an update, the contact's tag links are exactly the given tag ids and its values exactly the non-empty entries; other contacts' links are untouched |
| Contacts.ContactStore.constructor | lib/types.ts:90-119 | empty contacts, link and field tables |
| Contacts.ContactStore.CreateContact | lib/actions/contacts.ts:64-121 | the client errors and no write; a failed insert writes nothing; otherwise a contact with the caller's client and creator, plus its tag and non-empty value rows unless their insert fails |
| Contacts.ContactStore.UpdateContact | lib/actions/contacts.ts:123-163 | an update error changes nothing; otherwise the contact is edited and its tag and value links replaced, each delete and insert failing independently |
| Contacts.ContactStore.ReplaceTags | lib/actions/contacts.ts:137-145 | the contact's tag links are deleted (unless that fails) and the new ones appended (unless that fails); nothing else changes |
| Contacts.ContactStore.ReplaceValues | lib/actions/contacts.ts:147-160 | the same for custom values |
| Contacts.ContactStore.DeleteContact | lib/actions/contacts.ts:165-173 | exactly the contact rows with that id are removed; link rows stay |
| Contacts.ContactStore.CreateCustomField | lib/actions/contacts.ts:206-232 | the client errors and no write, or one field appended for the caller's client |
| Contacts.ContactStore.DeleteCustomField | lib/actions/contacts.ts:234-242 | exactly the field rows with that id are removed |
| Tags.TagNameLeTotal | lib/actions/tags.ts:23 | the tag name order is total |
| Tags.GetTags | lib/actions/tags.ts:6-35 | empty without a user or client id, or on a query error; otherwise a permutation of the caller client's tags, by name |
| Tags.GetTagsExactly | lib/actions/tags.ts:19-23 | a tag is listed iff it belongs to the caller's client |
| Tags.CreatedTagListed | lib/actions/tags.ts:49-57 | a tag just created shows up in its client's listing |
| Tags.TagTable.constructor | lib/types.ts:81-88 | an empty tags table |
| Tags.TagTable.CreateTag | lib/actions/tags.ts:37-63 | the client errors and no write, or one tag appended carrying the caller's client |
| Tags.TagTable.DeleteTag | lib/actions/tags.ts:65-73 | exactly the tag rows with that id are removed, without a client check |
| Admin.Guard | lib/actions/admin.ts:34-40 | passes iff there is a user whose profile has the super-admin role, otherwise "Unauthorized" |
| Admin.AdminRoleRefused | lib/actions/admin.ts:34-40 | the admin role is refused, like the user role |
| Admin.ClientNewerFirstTotal | lib/actions/admin.ts:23 | the newest-first client order is total |
| Admin.GetAllClients | lib/actions/admin.ts:6-26 | empty without a user; "Unauthorized" for a user who is not a super admin; otherwise every client, newest first (empty on a query error) |
| Admin.CheaperFirstTotal | lib/actions/admin.ts:121 | the price order is total |
| Admin.GetAllPlans | lib/actions/admin.ts:118-124 | without any auth check, every plan by ascending price (empty on a query error) |
| Admin.SizeOr0 | lib/actions/admin.ts:249-253 | a missing result set counts as 0 |
| Admin.GetAdminStats | lib/actions/admin.ts:230-262 | none without a user; "Unauthorized" for a non-super-admin; otherwise each total is its table's size (0 when missing), and the active clients, counted by status, never outnumber the clients |
| Admin.AdminTables.constructor | lib/types.ts:11-33 | empty clients and plans tables |
| Admin.AdminTables.CreateClient | lib/actions/admin.ts:28-58 | "Unauthorized" before any write; otherwise one client row appended; plans untouched |
| Admin.AdminTables.UpdateClient | lib/actions/admin.ts:60-95 | guarded; on success only the client with the id changes, in its edited fields |
| Admin.AdminTables.DeleteClient | lib/actions/admin.ts:97-116 | guarded; on success exactly the client rows with the id are removed |
| Admin.AdminTables.CreatePlan | lib/actions/admin.ts:126-166 | guarded; on success one plan row appended; clients untouched |
| Admin.AdminTables.UpdatePlan | lib/actions/admin.ts:168-207 | guarded; on success only the plan with the id changes, in its edited fields |
| Admin.AdminTables.DeletePlan | lib/actions/admin.ts:209-228 | guarded; on success exactly the plan rows with the id are removed |
| Middleware.UpdateSession | lib/supabase/middleware.ts:4-69 | passes through without configuration or when the user lookup throws; redirects to "/auth/login" iff anonymous and outside "/auth" and "/"; redirects to "/dashboard" iff signed in on an auth page other than the sign-up confirmation |
| Middleware.LoginPathIsAuthPage | lib/supabase/middleware.ts:52-54 | the login page lies under "/auth" |
| Middleware.DashboardPathIsNotAuthPage | lib/supabase/middleware.ts:59-61 | the dashboard does not lie under "/auth" |
| Middleware.RedirectTargetSettles | lib/supabase/middleware.ts:52-63 | a redirect's target is let through for the same visitor, so there is no redirect loop |
| Middleware.AnonymousOnlyReachesPublicPages | lib/supabase/middleware.ts:52-56 | an anonymous visitor passes only under "/auth" or at "/" |
| Middleware.SignedInUserKeptOffAuthPages | lib/supabase/middleware.ts:59-63 | a signed-in user passes on an auth page only at the sign-up confirmation |
| ContactForm.Digits | components/contacts/create-contact-dialog.tsx:40 | only digits, and no more characters than the input |
| ContactForm.DigitsOfDigits | components/contacts/create-contact-dialog.tsx:40 | stripping a string of digits leaves it as it is |
| ContactForm.DigitsOfPunctuation | components/contacts/create-contact-dialog.tsx:40 | stripping a string without digits leaves nothing |
| ContactForm.DigitsAppend | components/contacts/create-contact-dialog.tsx:40 | stripping distributes over concatenation |
| ContactForm.Mask | components/contacts/create-contact-dialog.tsx:41-44 | up to 2 digits as they are; otherwise '(' and ')' around the first two digits at 0 and 3, a space at 4, every later digit in order, and from the eighth digit on a dash at 10; at most 11 digits kept, so 11 or more give 15 characters |
| ContactForm.FormatPhoneBrazilian | components/contacts/create-contact-dialog.tsx:39-45 | the digits of the result are the first (at most eleven) digits of the input, in order |
| ContactForm.DigitsAround | components/contacts/create-contact-dialog.tsx:42-44 | mask punctuation adds no digits |
| ContactForm.DigitsOfFramed | components/contacts/create-contact-dialog.tsx:42 | the digits of "(a) b" are those of a then b |
| ContactForm.DigitsOfDashed | components/contacts/create-contact-dialog.tsx:43-44 | the digits of "(a) b-c" are those of a, b, c |
| ContactForm.MaskKeepsDigits | components/contacts/create-contact-dialog.tsx:41-44 | the mask keeps the first eleven digits, in order, and no others |
| ContactForm.MaskKeepsDigitsShort | components/contacts/create-contact-dialog.tsx:42 | the 3-to-7-digit shape keeps every digit |
| ContactForm.MaskKeepsDigitsLong | components/contacts/create-contact-dialog.tsx:43-44 | the dashed shape keeps the first eleven digits |
| ContactForm.DashedDigits | components/contacts/create-contact-dialog.tsx:43 | the dashed shape of 8 to 11 digits keeps them all |
| ContactForm.MaskOfFirstEleven | components/contacts/create-contact-dialog.tsx:44 | digits past the eleventh do not change the mask |
| ContactForm.FormatIdempotent | components/contacts/create-contact-dialog.tsx:39-49 | formatting an already formatted number changes nothing, so the per-keystroke mask is stable |
| ContactForm.ToggleTag | components/contacts/create-contact-dialog.tsx:52-54 | the tag is selected afterwards iff it was not before; other ids unaffected; an absent id is appended; no duplicates are introduced |
| ContactForm.DistinctFilter | components/contacts/create-contact-dialog.tsx:53 | removing ids keeps a duplicate-free list duplicate-free |
| ContactForm.ToggleTwice | components/contacts/create-contact-dialog.tsx:53 | toggling an unselected tag twice restores the list exactly; for a duplicate-free list the same ids stay selected |
| ContactForm.Shown | components/contacts/create-contact-dialog.tsx:167-175 | the value stored for the field, or "" when none is |
| ContactForm.SetValue | components/contacts/create-contact-dialog.tsx:168-176 | the field now shows the new value, every other field shows what it did, an existing key keeps its place and a new key goes last |
| ContactForm.Submit | components/contacts/create-contact-dialog.tsx:61-66 | an empty email is sent as null, any other as it is; the values dictionary is sent as its entries, in order |
| EditCardForm.OrEmpty | components/boards/edit-card-dialog.tsx:43-47 | a null text becomes "" |
| EditCardForm.TagIdsOrNone | components/boards/edit-card-dialog.tsx:46 | the card's tag ids, or none |
| EditCardForm.FindContact | components/boards/edit-card-dialog.tsx:78 | a contact in the list with that id, none only when no contact has it |
| EditCardForm.SubmittedContactId | components/boards/edit-card-dialog.tsx:101 | undefined iff the selection is "none" or empty; any other id is passed on |
| EditCardForm.Form.constructor | components/boards/edit-card-dialog.tsx:42-47 | the fields start from the card, null text becoming "" |
| EditCardForm.Form.ResetFromCard | components/boards/edit-card-dialog.tsx:54-65 | opening the dialog resets every field from the card |
| EditCardForm.Listed | lib/actions/contacts.ts:19-27 | the contacts the dialog loads: one view per row of `getContacts`, with its id, name, phone and email, and no `tags` list |
| EditCardForm.ListedContactCarriesNoTags | components/boards/edit-card-dialog.tsx:83-85 | a contact picked from the loaded list is one of the rows and has no tag list, so the tag copy never runs |
| EditCardForm.Form.HandleContactSelect | components/boards/edit-card-dialog.tsx:73-87 | the selection always changes; "none" or an unknown id changes nothing else; a known contact fills title, phone and email, and the tags when it carries a tag list (which no contact from `getContacts` does); the description never changes |
| EditCardForm.Form.ToggleTag | components/boards/edit-card-dialog.tsx:113-115 | the same toggle as the contact form's; other fields unchanged |
| EditCardForm.NoneUnlinks | components/boards/edit-card-dialog.tsx:101 | choosing "none", or having had no contact, unlinks the card on submit |
| EditCardForm.PickedContactLinked | components/boards/edit-card-dialog.tsx:78-101 | a contact picked from the list is the one passed on submit |
| ProfileForm.Validate | app/profile/profile-client.tsx:49-57 | a mismatch is reported first, then a password shorter than 6; accepted iff both match and it is at least 6 long |
| ProfileForm.PasswordForm.constructor | app/profile/profile-client.tsx:23-25 | the three password fields start empty |
| ProfileForm.PasswordForm.HandleUpdatePassword | app/profile/profile-client.tsx:46-73 | a validation error is shown with no update call and the fields kept; otherwise the update is called with the new password, and the fields are cleared on success and kept on failure |
| ProfileForm.MismatchReportedFirst | app/profile/profile-client.tsx:49-57 | a short, mismatched pair reports the mismatch |
| ProfileForm.AcceptedPasswordsAreConfirmed | app/profile/profile-client.tsx:49-62 | the update is reached only with a confirmed password of at least 6 characters |
| Sidebar.VisibleItems | components/layout/sidebar.tsx:19-47 | exactly the navigation entries whose roles include the user's role |
| Sidebar.RoleLists | components/layout/sidebar.tsx:24-36 | the first two entries list all three roles; the super-admin entry lists "super_admin" and neither "user" nor "admin" |
| Sidebar.SuperAdminSeesAll | components/layout/sidebar.tsx:19-47 | a super admin sees all three entries in order |
| Sidebar.UsersSeeTwo | components/layout/sidebar.tsx:24-47 | "user" and "admin" see Painel and Quadros Kanban, in that order |
| Sidebar.UnknownRoleSeesNothing | components/layout/sidebar.tsx:47 | any other role sees no entry |
| Sidebar.AtMostOneActive | components/layout/sidebar.tsx:57 | at most one visible entry is active for a path |
| Sidebar.VisibleHrefsDistinct | components/layout/sidebar.tsx:22-47 | visible entries have pairwise different hrefs |
| Sidebar.DistinctHrefsFilter | components/layout/sidebar.tsx:47 | filtering keeps hrefs distinct |

## Left out

- The types of lib/types.ts are datatypes in `types.dfy`. The role, client status, billing period and field type are closed enumerations. Nullable columns are `Option`.
- Embedded joins are not modelled. These are the tags and custom values of a contact in `getContacts` and `getContact`, the stage name in `getRecentLeads`, the plan in `getAllClients`, and the client in `validateApiKey`. The model returns the base rows.
- Foreign-key cascades are not modelled, so deleting a board, stage, contact or field leaves dependent rows in place. The datastore's cascades are not part of this model.
- SHA-256 and the random bytes are parameters. The hash is not assumed injective.
- The RPC `create_user_organization` is a parameter. Its own writes, creating a client and linking the profile, are not part of this model.
- Dashboard.ConversionRate: exact `real` arithmetic. Floating-point rounding is not modelled.
- Day keys are the integer UTC day of the millisecond timestamp. The ISO date strings the code compares sort the same way. Time zones, daylight-saving changes in `setDate` and locale formatting are left out.
- Races are not modelled, for example two concurrent creations computing the same maximum + 1 position. Every action runs alone.
- `revalidatePath`, `router.refresh`, logging, toasts, alerts and confirmations are left out.
- An exception thrown by the datastore client is modelled as a "query fails" flag on the step that raises it. In the server actions that catch it (`getContacts`, `getCustomFields`, `getTags`), the model returns the same value as for a reported error.
- BoardsApi.Get: the route answers an exception differently from a reported error, so it has its own `ThrowPoint` parameter. An exception inside validation answers 500 with no write. An exception after the key was stamped answers 500 and keeps the stamp. A reported lookup error answers 401. An exception raised by the `last_used_at` update itself is not modelled separately.
- The max-position select in `createCard` and `createStage` has its error ignored. The model has a separate `positionQueryFails` flag for it: the row is then still inserted, at position 0, and may share that position with an existing card or stage.
- Admin.AdminTables.CreateClient, Admin.AdminTables.UpdateClient, Admin.AdminTables.CreatePlan, Admin.AdminTables.UpdatePlan, Contacts.ContactStore.CreateCustomField: the client status, billing period and field type are closed enumerations. The code passes any string through; the dialogs that call these actions only offer the enumeration's values.
- Tags.GetTags, Contacts.GetCustomFields: names are ordered by character code (`Types.LexLe`). The datastore's `order("name")` uses its collation, which may order case and accents differently.
- ProfileForm.Validate: length counts Dafny characters. JavaScript counts UTF-16 code units, so characters outside the Basic Multilingual Plane are counted once here and twice there.
- Form plumbing is left out: `handlePhoneChange`, the loading flags, the `loadData` fetch of the card dialog, and the reset of the contact form after submit.
- Three broken call sites are not modelled (a fourth, the tag copy of the card dialog, is modelled and shown never to run):
  - the card dialog's submit passes tags and a contact id where `updateCard` expects a status (components/boards/edit-card-dialog.tsx:94-102);
  - the super-admin page uses undefined names;
  - the dashboard type declares `leadsByTags` while the action returns `leadsByStatus`.
- The cookie handling of the middleware (lib/supabase/middleware.ts:24-41) is left out. So is the client construction in lib/supabase/client.ts.
- EditCardForm.Form.HandleContactSelect: the dialog reads `contact.tags` (components/boards/edit-card-dialog.tsx:83-85), but `getContacts` embeds the links as `contact_tags`, so for every contact the dialog loads the tag copy is skipped and the selected tags stay. The method keeps the branch for a contact that does carry a list, following JavaScript truthiness (an empty list clears the selection).
- Boards.BoardTable.CreateBoard: "Profile not found" is raised only when the profile row is missing. A profile without a client id goes on to provisioning.
- A failed stage insert in `createBoard` is only logged, and the board is still returned. The model states exactly that.

## Findings

| source | as written | input that shows it | evidently intended | confidence | as-written member | corrected member |
|---|---|---|---|---|---|---|
| components/boards/kanban-board.tsx:87-89 | dropping a card on another card sends that card's index in the stage's list as the new `position` | stage s1 holds c (position 5) and d (position 6); card x is dropped on d. The move sent is (x, s1, 1); x is meant to land just before d, but position 1 sorts it before c | send the stored position of the card dropped on (one past the largest for a header drop), which keeps the stage's positions ascending; the tie with the card dropped on is left to the datastore's row order. The corrected member places the card into the target stage's list as it stands, so for a drop within the same stage the card's old slot is not removed first | not executed | KanbanBoard.SlotIndexBreaksOrder | KanbanBoard.IntendedPositionKeepsOrder |
