/** The stage actions of lib/actions/stages.ts: the board read that nests
    each stage's cards and orders both by position, and create (appended
    after the board's last stage), update and delete over the `stages`
    table. */
module Stages {
  import opened Common
  import opened Types
  import Cards

  function StageId(s: Stage): Id { s.id }

  /** `order("position", { ascending: true })` on stages. */
  predicate StageBefore(a: Stage, b: Stage) { a.position <= b.position }

  /** `(a, b) => a.position - b.position` on cards. */
  predicate CardBefore(a: Card, b: Card) { a.position <= b.position }

  /** The `.eq("board_id", boardId)` filter on stages. */
  function OnBoard(boardId: Id): Stage -> bool
  {
    (s: Stage) => s.boardId == boardId
  }

  lemma CardBeforeTotal()
    ensures Total(CardBefore)
  {
  }

  lemma StageBeforeTotal()
    ensures Total(StageBefore)
  {
  }

  /** A stage row with its nested cards (`select("*, cards(*)")`). */
  datatype StageWithCards = StageWithCards(stage: Stage, cards: seq<Card>)

  function StagesOf(r: seq<StageWithCards>): (ss: seq<Stage>)
    ensures |ss| == |r|
    ensures forall i :: 0 <= i < |r| ==> ss[i] == r[i].stage
  {
    seq(|r|, i requires 0 <= i < |r| => r[i].stage)
  }

  /** The cards of one stage, in ascending position order. */
  function SortedCards(cardRows: seq<Card>, stageId: Id): (cs: seq<Card>)
    ensures Sorted(cs, CardBefore)
    ensures multiset(cs) == multiset(Filter(cardRows, Cards.InStage(stageId)))
  {
    CardBeforeTotal();
    Sort(Filter(cardRows, Cards.InStage(stageId)), CardBefore)
  }

  /** getStagesWithCards. `queryFails` stands for the stage query returning
      no data, in which case the result is empty. */
  function GetStagesWithCards(stageRows: seq<Stage>, cardRows: seq<Card>, boardId: Id, queryFails: bool)
    : (r: seq<StageWithCards>)
    ensures queryFails ==> r == []
    ensures !queryFails ==> Sorted(StagesOf(r), StageBefore)
    ensures !queryFails ==>
      multiset(StagesOf(r)) == multiset(Filter(stageRows, OnBoard(boardId)))
    ensures forall i :: 0 <= i < |r| ==> r[i].stage.boardId == boardId
    ensures forall i :: 0 <= i < |r| ==> Sorted(r[i].cards, CardBefore)
    ensures forall i :: 0 <= i < |r| ==>
      multiset(r[i].cards) == multiset(Filter(cardRows, Cards.InStage(r[i].stage.id)))
  {
    if queryFails then []
    else
      var onBoard := Filter(stageRows, OnBoard(boardId));
      StageBeforeTotal();
      var ordered := Sort(onBoard, StageBefore);
      SameElements(ordered, onBoard);
      assert forall i :: 0 <= i < |ordered| ==> ordered[i].boardId == boardId by {
        forall i | 0 <= i < |ordered| ensures ordered[i].boardId == boardId {
          assert ordered[i] in onBoard;
          assert OnBoard(boardId)(ordered[i]);
        }
      }
      var r := Nest(ordered, cardRows);
      assert StagesOf(r) == ordered;
      r
  }

  /** Pairs each stage with its ordered cards, keeping the stage order. */
  function Nest(ordered: seq<Stage>, cardRows: seq<Card>): (r: seq<StageWithCards>)
    ensures StagesOf(r) == ordered
    ensures forall i :: 0 <= i < |r| ==> r[i].cards == SortedCards(cardRows, r[i].stage.id)
  {
    var r := seq(|ordered|, i requires 0 <= i < |ordered| =>
      StageWithCards(ordered[i], SortedCards(cardRows, ordered[i].id)));
    assert StagesOf(r) == ordered;
    r
  }

  /** Every card the read returns belongs to the stage it is nested in, and
      every card of a returned stage is returned with it. */
  lemma NestedCardsBelong(stageRows: seq<Stage>, cardRows: seq<Card>, boardId: Id, i: int, c: Card)
    requires 0 <= i < |GetStagesWithCards(stageRows, cardRows, boardId, false)|
    ensures var sw := GetStagesWithCards(stageRows, cardRows, boardId, false)[i];
      c in sw.cards <==> c in cardRows && c.stageId == sw.stage.id
  {
    var sw := GetStagesWithCards(stageRows, cardRows, boardId, false)[i];
    SameElements(sw.cards, Filter(cardRows, Cards.InStage(sw.stage.id)));
  }

  function StagePositions(rows: seq<Stage>, boardId: Id): (ps: seq<int>)
    ensures forall p :: p in ps <==> exists s :: s in rows && s.boardId == boardId && s.position == p
  {
    var onBoard := Filter(rows, OnBoard(boardId));
    var ps := seq(|onBoard|, i requires 0 <= i < |onBoard| => onBoard[i].position);
    assert forall s :: s in onBoard ==> s.position in ps by {
      forall s | s in onBoard ensures s.position in ps {
        var i :| 0 <= i < |onBoard| && onBoard[i] == s;
        assert ps[i] == s.position;
      }
    }
    ps
  }

  /** The `stages` table; `id` is the primary key. */
  class StageTable {
    var rows: seq<Stage>

    ghost predicate Valid()
      reads this
    {
      KeysDistinct(rows, StageId)
    }

    constructor ()
      ensures Valid() && rows == []
    {
      rows := [];
    }

    /** createStage: the new stage goes after the board's last stage
        (position 0 on a board without stages, or when the max-position
        select fails). */
    method CreateStage(boardId: Id, name: string, color: string, newId: Id, now: Timestamp,
                       positionQueryFails: bool, insertFails: bool)
      returns (r: Result<Stage>)
      requires Valid()
      requires FreshKey(rows, StageId, newId)
      modifies this
      ensures Valid()
      ensures insertFails ==> r == Err(DatastoreError) && rows == old(rows)
      ensures !insertFails ==>
        && r.Ok?
        && rows == old(rows) + [r.value]
        && r.value == Stage(newId, name, boardId,
                            if positionQueryFails then 0 else Cards.NextPosition(StagePositions(old(rows), boardId)),
                            Some(color), now)
    {
      // As in createCard, a failed max-position select reads as an empty board.
      var nextPosition := if positionQueryFails then 0 else Cards.NextPosition(StagePositions(rows, boardId));
      if insertFails {
        return Err(DatastoreError);
      }
      var stage := Stage(newId, name, boardId, nextPosition, Some(color), now);
      AppendKeepsKeysDistinct(rows, stage, StageId);
      rows := rows + [stage];
      r := Ok(stage);
    }

    /** Inserts rows the caller built (the default stages of a new board). */
    method InsertAll(newRows: seq<Stage>)
      requires Valid()
      requires KeysDistinct(rows + newRows, StageId)
      modifies this
      ensures Valid()
      ensures rows == old(rows) + newRows
    {
      rows := rows + newRows;
    }

    /** updateStage: only name and color of the stage with that id change. */
    method UpdateStage(stageId: Id, name: string, color: string, updateFails: bool) returns (r: Result<()>)
      requires Valid()
      modifies this
      ensures Valid()
      ensures updateFails ==> r == Err(DatastoreError) && rows == old(rows)
      ensures !updateFails ==> r == Ok(()) && |rows| == |old(rows)|
      ensures !updateFails ==> forall i :: 0 <= i < |rows| ==>
        rows[i] == if old(rows)[i].id == stageId then old(rows)[i].(name := name, color := Some(color)) else old(rows)[i]
    {
      if updateFails {
        return Err(DatastoreError);
      }
      var current := rows;
      rows := seq(|current|, i requires 0 <= i < |current| =>
        if current[i].id == stageId then current[i].(name := name, color := Some(color)) else current[i]);
      r := Ok(());
    }

    /** deleteStage: removes the row with that id and no other. */
    method DeleteStage(stageId: Id, deleteFails: bool) returns (r: Result<()>)
      requires Valid()
      modifies this
      ensures Valid()
      ensures deleteFails ==> r == Err(DatastoreError) && rows == old(rows)
      ensures !deleteFails ==> r == Ok(()) && rows == Filter(old(rows), (s: Stage) => s.id != stageId)
      ensures !deleteFails ==> forall s :: s in rows <==> s in old(rows) && s.id != stageId
    {
      if deleteFails {
        return Err(DatastoreError);
      }
      FilterKeepsKeysDistinct(rows, (s: Stage) => s.id != stageId, StageId);
      rows := Filter(rows, (s: Stage) => s.id != stageId);
      r := Ok(());
    }
  }
}
