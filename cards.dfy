/** The card actions of lib/actions/cards.ts over the `cards` table: create
    (appended after the stage's last card), update of the lead fields,
    delete, and the single-row move the Kanban board issues. */
module Cards {
  import opened Common
  import opened Types

  function CardId(c: Card): Id { c.id }

  /** `.eq("stage_id", stageId)` on cards. */
  function InStage(stageId: Id): Card -> bool
  {
    (c: Card) => c.stageId == stageId
  }

  /** The `position` column of some cards, in order. */
  function Positions(cs: seq<Card>): (ps: seq<int>)
    ensures |ps| == |cs|
    ensures forall i :: 0 <= i < |cs| ==> ps[i] == cs[i].position
    ensures forall p :: p in ps <==> exists c :: c in cs && c.position == p
  {
    var ps := seq(|cs|, i requires 0 <= i < |cs| => cs[i].position);
    assert forall c :: c in cs ==> c.position in ps by {
      forall c | c in cs ensures c.position in ps {
        var i :| 0 <= i < |cs| && cs[i] == c;
        assert ps[i] == c.position;
      }
    }
    ps
  }

  /** Positions of the cards of stage `stageId`, in table order (the
      `select("position").eq("stage_id", stageId)` query). */
  function StagePositions(rows: seq<Card>, stageId: Id): (ps: seq<int>)
    ensures forall p :: p in ps <==> exists c :: c in rows && c.stageId == stageId && c.position == p
  {
    Positions(Filter(rows, InStage(stageId)))
  }

  /** The append rule shared by createCard and createStage: the largest
      existing position plus one (`order(desc).limit(1)`, then `+ 1`), or 0
      when there is none. */
  function NextPosition(positions: seq<int>): (p: int)
    ensures positions == [] ==> p == 0
    ensures positions != [] ==> p - 1 in positions
    ensures forall q :: q in positions ==> q < p
  {
    if positions == [] then 0 else MaxOf(positions) + 1
  }

  /** A card appended to a stage lands strictly after every card already in
      that stage. */
  lemma AppendedCardIsLast(rows: seq<Card>, stageId: Id, c: Card)
    requires c in rows && c.stageId == stageId
    ensures c.position < NextPosition(StagePositions(rows, stageId))
  {
    assert c.position in StagePositions(rows, stageId);
  }

  /** Cards of other stages do not influence the appended position,
      wherever they stand in the table. */
  lemma {:induction false} NextPositionIgnoresOtherStages(before: seq<Card>, others: seq<Card>, after: seq<Card>, stageId: Id)
    requires forall c :: c in others ==> c.stageId != stageId
    ensures StagePositions(before + others + after, stageId) == StagePositions(before + after, stageId)
  {
    var inStage := InStage(stageId);
    assert Filter(before + others + after, inStage) == Filter(before + after, inStage) by {
      FilterNone(others, inStage);
      FilterAppend(before + others, after, inStage);
      FilterAppend(before, others, inStage);
      FilterAppend(before, after, inStage);
      assert Filter(before, inStage) + [] == Filter(before, inStage);
    }
  }

  /** The table after `moveCard(cardId, stageId, position)`: the one update
      `{stage_id, position}` on the row with that id. */
  function Moved(rows: seq<Card>, cardId: Id, stageId: Id, position: int): (r: seq<Card>)
    ensures |r| == |rows|
    ensures forall i :: 0 <= i < |rows| && rows[i].id != cardId ==> r[i] == rows[i]
    ensures forall i :: 0 <= i < |rows| && rows[i].id == cardId ==>
      r[i] == rows[i].(stageId := stageId, position := position)
  {
    seq(|rows|, i requires 0 <= i < |rows| =>
      if rows[i].id == cardId then rows[i].(stageId := stageId, position := position) else rows[i])
  }

  /** A move renumbers no sibling: in every stage, the cards other than the
      moved one are the same rows, in the same order, as before. */
  lemma {:induction false} MoveRenumbersNoSibling(rows: seq<Card>, cardId: Id, stageId: Id, position: int, s: Id)
    ensures Filter(Moved(rows, cardId, stageId, position), (c: Card) => c.stageId == s && c.id != cardId)
         == Filter(rows, (c: Card) => c.stageId == s && c.id != cardId)
  {
    var p := (c: Card) => c.stageId == s && c.id != cardId;
    if rows != [] {
      var m := Moved(rows, cardId, stageId, position);
      assert m[1..] == Moved(rows[1..], cardId, stageId, position);
      MoveRenumbersNoSibling(rows[1..], cardId, stageId, position, s);
      assert p(m[0]) == p(rows[0]);
      if p(rows[0]) {
        assert m[0] == rows[0];
      }
    }
  }

  /** After a move the moved card sits in the target stage at the position
      sent, and no other row of any stage is touched. */
  lemma MovePlacesCard(rows: seq<Card>, cardId: Id, stageId: Id, position: int)
    requires KeysDistinct(rows, CardId)
    requires exists c :: c in rows && c.id == cardId
    ensures exists c :: c in Moved(rows, cardId, stageId, position) && c.id == cardId && c.stageId == stageId && c.position == position
    ensures forall c :: c in rows && c.id != cardId ==> c in Moved(rows, cardId, stageId, position)
  {
    var m := Moved(rows, cardId, stageId, position);
    var c :| c in rows && c.id == cardId;
    var i :| 0 <= i < |rows| && rows[i] == c;
    assert m[i].id == cardId && m[i] in m;
    forall d | d in rows && d.id != cardId ensures d in m {
      var j :| 0 <= j < |rows| && rows[j] == d;
      assert m[j] == d;
    }
  }

  /** The `cards` table. Rows are kept in insertion order; `id` is the
      primary key. */
  class CardTable {
    var rows: seq<Card>

    ghost predicate Valid()
      reads this
    {
      KeysDistinct(rows, CardId)
    }

    constructor ()
      ensures Valid() && rows == []
    {
      rows := [];
    }

    /** createCard. `newId` and `now` are the id and timestamp the datastore
        assigns; `positionQueryFails` says whether the max-position select
        reports an error, and `insertFails` whether the insert does. */
    method CreateCard(user: Option<Id>, boardId: Id, stageId: Id, title: string, description: string,
                      phone: string, email: string, status: string,
                      newId: Id, now: Timestamp, positionQueryFails: bool, insertFails: bool)
      returns (r: Result<Card>)
      requires Valid()
      requires FreshKey(rows, CardId, newId)
      modifies this
      ensures Valid()
      ensures user.None? ==> r == Err(Message("Unauthorized")) && rows == old(rows)
      ensures user.Some? && insertFails ==> r == Err(DatastoreError) && rows == old(rows)
      ensures user.Some? && !insertFails ==>
        && r.Ok?
        && rows == old(rows) + [r.value]
        && r.value == Card(newId, title, Some(description), stageId, boardId,
                           if positionQueryFails then 0 else NextPosition(StagePositions(old(rows), stageId)),
                           Some(phone), Some(email), status, user.value, now)
    {
      if user.None? {
        return Err(Message("Unauthorized"));
      }
      // The error of the max-position select is not checked: a failed
      // select reads as an empty stage and the card goes in at 0.
      var nextPosition := if positionQueryFails then 0 else NextPosition(StagePositions(rows, stageId));
      if insertFails {
        return Err(DatastoreError);
      }
      var card := Card(newId, title, Some(description), stageId, boardId, nextPosition,
                       Some(phone), Some(email), status, user.value, now);
      AppendKeepsKeysDistinct(rows, card, CardId);
      rows := rows + [card];
      r := Ok(card);
    }

    /** updateCard: rewrites the lead fields of the row with that id; its
        stage, position, board and author are untouched. */
    method UpdateCard(cardId: Id, title: string, description: string, phone: string, email: string,
                      status: string, updateFails: bool)
      returns (r: Result<()>)
      requires Valid()
      modifies this
      ensures Valid()
      ensures updateFails ==> r == Err(DatastoreError) && rows == old(rows)
      ensures !updateFails ==> r == Ok(()) && |rows| == |old(rows)|
      ensures !updateFails ==> forall i :: 0 <= i < |rows| ==>
        && rows[i].id == old(rows)[i].id
        && rows[i].stageId == old(rows)[i].stageId
        && rows[i].position == old(rows)[i].position
        && rows[i].boardId == old(rows)[i].boardId
        && rows[i].createdBy == old(rows)[i].createdBy
        && rows[i].createdAt == old(rows)[i].createdAt
      ensures !updateFails ==> forall i :: 0 <= i < |rows| ==>
        rows[i] == if old(rows)[i].id == cardId
                   then old(rows)[i].(title := title, description := Some(description), phone := Some(phone),
                                      email := Some(email), status := status)
                   else old(rows)[i]
    {
      if updateFails {
        return Err(DatastoreError);
      }
      var current := rows;
      rows := seq(|current|, i requires 0 <= i < |current| =>
        if current[i].id == cardId
        then current[i].(title := title, description := Some(description), phone := Some(phone),
                         email := Some(email), status := status)
        else current[i]);
      r := Ok(());
    }

    /** deleteCard: removes the row with that id and no other. */
    method DeleteCard(cardId: Id, deleteFails: bool) returns (r: Result<()>)
      requires Valid()
      modifies this
      ensures Valid()
      ensures deleteFails ==> r == Err(DatastoreError) && rows == old(rows)
      ensures !deleteFails ==> r == Ok(()) && rows == Filter(old(rows), (c: Card) => c.id != cardId)
      ensures !deleteFails ==> forall c :: c in rows <==> c in old(rows) && c.id != cardId
    {
      if deleteFails {
        return Err(DatastoreError);
      }
      FilterKeepsKeysDistinct(rows, (c: Card) => c.id != cardId, CardId);
      rows := Filter(rows, (c: Card) => c.id != cardId);
      r := Ok(());
    }

    /** moveCard: one update of stage and position on the moved row; no
        sibling is renumbered (see MoveRenumbersNoSibling). */
    method MoveCard(cardId: Id, newStageId: Id, newPosition: int, updateFails: bool) returns (r: Result<()>)
      requires Valid()
      modifies this
      ensures Valid()
      ensures updateFails ==> r == Err(DatastoreError) && rows == old(rows)
      ensures !updateFails ==> r == Ok(()) && rows == Moved(old(rows), cardId, newStageId, newPosition)
    {
      if updateFails {
        return Err(DatastoreError);
      }
      rows := Moved(rows, cardId, newStageId, newPosition);
      r := Ok(());
    }
  }
}
