/** The board actions of lib/actions/boards.ts: the caller-scoped board
    list, board creation (which provisions an organization for a caller
    without one and seeds four default stages) and board deletion. */
module Boards {
  import opened Common
  import opened Types
  import Cards
  import Stages

  function BoardId(b: Board): Id { b.id }

  /** `order("created_at", { ascending: false })`. */
  predicate NewerFirst(a: Board, b: Board) { a.createdAt >= b.createdAt }

  lemma NewerFirstTotal()
    ensures Total(NewerFirst)
  {
  }

  /** The rows getBoards lets `p` see: a caller who is not a super admin
      and has a (non-empty) client id sees that client's boards; anyone
      else is not narrowed. */
  function VisibleTo(p: Profile): Board -> bool
  {
    (b: Board) => !(p.role != SuperAdmin && Truthy(p.clientId)) || b.clientId == p.clientId.value
  }

  /** getBoards. `queryFails` stands for the board query returning no data. */
  function GetBoards(session: Session, rows: seq<Board>, queryFails: bool): (r: seq<Board>)
    ensures session.user.None? || session.profile.None? || queryFails ==> r == []
    ensures session.user.Some? && session.profile.Some? && !queryFails ==>
      multiset(r) == multiset(Filter(rows, VisibleTo(session.profile.value)))
    ensures Sorted(r, NewerFirst)
  {
    if session.user.None? || session.profile.None? || queryFails then []
    else
      NewerFirstTotal();
      Sort(Filter(rows, VisibleTo(session.profile.value)), NewerFirst)
  }

  /** A caller tied to a client sees exactly the boards of that client. */
  lemma GetBoardsScopedToClient(session: Session, rows: seq<Board>, b: Board)
    requires session.user.Some? && session.profile.Some?
    requires session.profile.value.role != SuperAdmin && Truthy(session.profile.value.clientId)
    ensures b in GetBoards(session, rows, false) <==> b in rows && b.clientId == session.profile.value.clientId.value
  {
    SameElements(GetBoards(session, rows, false), Filter(rows, VisibleTo(session.profile.value)));
  }

  /** A super admin sees every board. */
  lemma GetBoardsSuperAdminSeesAll(session: Session, rows: seq<Board>, b: Board)
    requires session.user.Some? && session.profile.Some? && session.profile.value.role == SuperAdmin
    ensures b in GetBoards(session, rows, false) <==> b in rows
  {
    SameElements(GetBoards(session, rows, false), Filter(rows, VisibleTo(session.profile.value)));
  }

  /** The scope is skipped, not emptied, for a caller without a client: such
      a caller is shown every board. */
  lemma GetBoardsUnscopedWithoutClient(session: Session, rows: seq<Board>, b: Board)
    requires session.user.Some? && session.profile.Some? && !Truthy(session.profile.value.clientId)
    ensures b in GetBoards(session, rows, false) <==> b in rows
  {
    SameElements(GetBoards(session, rows, false), Filter(rows, VisibleTo(session.profile.value)));
  }

  /** `email.split("@")[0]`: the text before the first `@`, or the whole
      address when it has none. */
  function LocalPart(email: string): (r: string)
    ensures '@' !in r
    ensures StartsWith(email, r)
    ensures r == email || email[|r|] == '@'
  {
    if email == [] then []
    else if email[0] == '@' then []
    else
      var rest := LocalPart(email[1..]);
      [email[0]] + rest
  }

  /** `full_name || email.split("@")[0] + "'s Organization"`: the full name
      alone when it is non-empty, else the local part with the suffix. */
  function OrganizationName(p: Profile): (r: string)
    ensures Truthy(p.fullName) ==> r == p.fullName.value
    ensures !Truthy(p.fullName) ==> r == LocalPart(p.email) + "'s Organization"
    ensures !Truthy(p.fullName) ==> exists local :: r == local + "'s Organization" && StartsWith(p.email, local) && '@' !in local
  {
    if Truthy(p.fullName) then p.fullName.value
    else LocalPart(p.email) + "'s Organization"
  }

  /** The local part of "local@domain" is `local`, whatever the domain. */
  lemma {:induction false} LocalPartOfAddress(local: string, domain: string)
    requires '@' !in local
    ensures LocalPart(local + "@" + domain) == local
  {
    if local != [] {
      assert (local + "@" + domain)[1..] == local[1..] + "@" + domain;
      LocalPartOfAddress(local[1..], domain);
    } else {
      assert local + "@" + domain == "@" + domain;
    }
  }

  /** Without a full name, an address "local@domain" names the organization
      after `local`. */
  lemma OrganizationNameFromEmail(p: Profile, local: string, domain: string)
    requires !Truthy(p.fullName)
    requires p.email == local + "@" + domain && '@' !in local
    ensures OrganizationName(p) == local + "'s Organization"
  {
    LocalPartOfAddress(local, domain);
  }

  /** What the `create_user_organization` database function answers: an
      error with its message, or the (possibly empty) id it returned. */
  datatype RpcOutcome = RpcError(message: string) | RpcReturned(clientId: Option<Id>)

  /** The client the new board belongs to: the caller's own when it has one;
      otherwise the one `provision` creates under OrganizationName. */
  function ResolveClient(p: Profile, provision: string -> RpcOutcome): (r: Result<Id>)
    ensures Truthy(p.clientId) ==> r == Ok(p.clientId.value)
    ensures r.Ok? ==> r.value != ""
    ensures r.Err? ==> r.failure.Message? && StartsWith(r.failure.text, "Failed to create organization: ")
    ensures !Truthy(p.clientId) && provision(OrganizationName(p)).RpcReturned? && Truthy(provision(OrganizationName(p)).clientId)
            ==> r == Ok(provision(OrganizationName(p)).clientId.value)
  {
    if Truthy(p.clientId) then Ok(p.clientId.value)
    else
      match provision(OrganizationName(p))
      case RpcError(message) => Err(Message("Failed to create organization: " + message))
      case RpcReturned(id) =>
        if !Truthy(id) then Err(Message("Failed to create organization: No client ID returned"))
        else Ok(id.value)
  }

  /** The four stages every new board starts with. */
  function DefaultStages(boardId: Id, ids: seq<Id>, now: Timestamp): (r: seq<Stage>)
    requires |ids| == 4
    ensures |r| == 4
    ensures forall i :: 0 <= i < 4 ==> r[i].id == ids[i] && r[i].boardId == boardId && r[i].position == i
    ensures [r[0].name, r[1].name, r[2].name, r[3].name] == ["New", "Contacted", "Qualified", "Converted"]
    ensures Sorted(r, Stages.StageBefore)
  {
    [ Stage(ids[0], "New", boardId, 0, Some("#a855f7"), now),
      Stage(ids[1], "Contacted", boardId, 1, Some("#f97316"), now),
      Stage(ids[2], "Qualified", boardId, 2, Some("#06b6d4"), now),
      Stage(ids[3], "Converted", boardId, 3, Some("#22c55e"), now) ]
  }

  /** A board created without stages of its own shows the four default
      columns, in order and with no cards. */
  lemma NewBoardColumns(before: seq<Stage>, boardId: Id, ids: seq<Id>, now: Timestamp, cardRows: seq<Card>)
    requires |ids| == 4
    requires forall s :: s in before ==> s.boardId != boardId
    ensures Stages.StagesOf(Stages.GetStagesWithCards(before + DefaultStages(boardId, ids, now), cardRows, boardId, false))
            == DefaultStages(boardId, ids, now)
  {
    var defaults := DefaultStages(boardId, ids, now);
    var onBoard := Stages.OnBoard(boardId);
    FilterAppend(before, defaults, onBoard);
    assert forall i :: 0 <= i < |before| ==> !onBoard(before[i]) by {
      forall i | 0 <= i < |before| ensures !onBoard(before[i]) {
        assert before[i] in before;
      }
    }
    FilterNone(before, onBoard);
    FilterAllOf(defaults, onBoard);
    assert Filter(before + defaults, onBoard) == defaults;
    Stages.StageBeforeTotal();
    SortSorted(defaults, Stages.StageBefore);
    var r := Stages.GetStagesWithCards(before + defaults, cardRows, boardId, false);
    assert r == Stages.Nest(Sort(defaults, Stages.StageBefore), cardRows);
  }

  /** The next stage added to a fresh board goes to position 4. */
  lemma NewBoardNextStagePosition(before: seq<Stage>, boardId: Id, ids: seq<Id>, now: Timestamp)
    requires |ids| == 4
    requires forall s :: s in before ==> s.boardId != boardId
    ensures Cards.NextPosition(Stages.StagePositions(before + DefaultStages(boardId, ids, now), boardId)) == 4
  {
    var rows := before + DefaultStages(boardId, ids, now);
    var ps := Stages.StagePositions(rows, boardId);
    assert 3 in ps by {
      assert rows[|before| + 3] in rows;
    }
    forall q | q in ps ensures q <= 3 {
      var s :| s in rows && s.boardId == boardId && s.position == q;
      assert s !in before;
    }
  }

  /** The `boards` table; `id` is the primary key. */
  class BoardTable {
    var rows: seq<Board>

    ghost predicate Valid()
      reads this
    {
      KeysDistinct(rows, BoardId)
    }

    constructor ()
      ensures Valid() && rows == []
    {
      rows := [];
    }

    /** createBoard. `provision` stands for the organization RPC; the board
        insert and the (single, four-row) stage insert may each report an
        error. A failed stage insert is only logged: the board is returned. */
    method CreateBoard(session: Session, name: string, description: string,
                       provision: string -> RpcOutcome,
                       newBoardId: Id, now: Timestamp, boardInsertFails: bool,
                       stages: Stages.StageTable, stageIds: seq<Id>, stagesInsertFails: bool)
      returns (r: Result<Board>)
      requires Valid() && stages.Valid()
      requires FreshKey(rows, BoardId, newBoardId)
      requires |stageIds| == 4 && Distinct(stageIds)
      requires forall k :: k in stageIds ==> FreshKey(stages.rows, Stages.StageId, k)
      modifies this, stages
      ensures Valid() && stages.Valid()
      ensures session.user.None? ==> r == Err(Message("Unauthorized"))
      ensures session.user.Some? && session.profile.None? ==> r == Err(Message("Profile not found"))
      ensures session.user.Some? && session.profile.Some? && ResolveClient(session.profile.value, provision).Err? ==>
        r == Err(ResolveClient(session.profile.value, provision).failure)
      ensures r.Err? ==> rows == old(rows) && stages.rows == old(stages.rows)
      ensures session.user.Some? && session.profile.Some? && ResolveClient(session.profile.value, provision).Ok? ==>
        && (boardInsertFails ==> r == Err(DatastoreError))
        && (!boardInsertFails ==>
              && r == Ok(Board(newBoardId, name, Some(description), ResolveClient(session.profile.value, provision).value,
                               session.user.value, now))
              && rows == old(rows) + [r.value]
              && stages.rows == if stagesInsertFails then old(stages.rows)
                                else old(stages.rows) + DefaultStages(newBoardId, stageIds, now))
    {
      if session.user.None? {
        return Err(Message("Unauthorized"));
      }
      if session.profile.None? {
        return Err(Message("Profile not found"));
      }
      var client := ResolveClient(session.profile.value, provision);
      if client.Err? {
        return Err(client.failure);
      }
      if boardInsertFails {
        return Err(DatastoreError);
      }
      var board := Board(newBoardId, name, Some(description), client.value, session.user.value, now);
      AppendKeepsKeysDistinct(rows, board, BoardId);
      rows := rows + [board];
      if !stagesInsertFails {
        var defaults := DefaultStages(newBoardId, stageIds, now);
        assert KeysDistinct(stages.rows + defaults, Stages.StageId) by {
          forall i, j | 0 <= i < j < |stages.rows + defaults|
            ensures Stages.StageId((stages.rows + defaults)[i]) != Stages.StageId((stages.rows + defaults)[j])
          {
            if j >= |stages.rows| {
              var k := stageIds[j - |stages.rows|];
              assert k in stageIds;
              if i < |stages.rows| {
                assert FreshKey(stages.rows, Stages.StageId, k);
              }
            }
          }
        }
        stages.InsertAll(defaults);
      }
      r := Ok(board);
    }

    /** deleteBoard: removes the row with that id and no other. */
    method DeleteBoard(boardId: Id, deleteFails: bool) returns (r: Result<()>)
      requires Valid()
      modifies this
      ensures Valid()
      ensures deleteFails ==> r == Err(DatastoreError) && rows == old(rows)
      ensures !deleteFails ==> r == Ok(()) && rows == Filter(old(rows), (b: Board) => b.id != boardId)
      ensures !deleteFails ==> forall b :: b in rows <==> b in old(rows) && b.id != boardId
    {
      if deleteFails {
        return Err(DatastoreError);
      }
      FilterKeepsKeysDistinct(rows, (b: Board) => b.id != boardId, BoardId);
      rows := Filter(rows, (b: Board) => b.id != boardId);
      r := Ok(());
    }
  }
}
