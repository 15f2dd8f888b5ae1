/** The drag-and-drop decision of the Kanban board
    (components/boards/kanban-board.tsx): given the columns as displayed,
    the dragged card's id and the id of the element it was dropped on, it
    decides which `moveCard(cardId, stageId, position)` call to issue, if
    any. The call itself and the refresh that follows are left out. */
module KanbanBoard {
  import opened Common
  import opened Types
  import Cards

  /** A column as the board receives it: the stage id and its cards in
      display order (ascending position, see Stages.GetStagesWithCards). */
  datatype Column = Column(id: Id, cards: seq<Card>)

  /** The arguments of the `moveCard` call a drop issues. */
  datatype Move = Move(cardId: Id, stageId: Id, position: int)

  /** `column.cards.some((card) => card.id === cardId)` */
  predicate HasCard(col: Column, cardId: Id)
  {
    exists i :: 0 <= i < |col.cards| && col.cards[i].id == cardId
  }

  /** The drop target picks a column by its own id or by a card it holds. */
  predicate IsTargetFor(col: Column, overId: Id)
  {
    col.id == overId || HasCard(col, overId)
  }

  /** All cards of all columns, column after column (`flatMap`). */
  function Flatten(cols: seq<Column>): seq<Card>
  {
    if cols == [] then [] else cols[0].cards + Flatten(cols[1..])
  }

  lemma {:induction false} FlattenMembers(cols: seq<Column>, c: Card)
    ensures c in Flatten(cols) <==> exists k :: 0 <= k < |cols| && c in cols[k].cards
  {
    if cols != [] {
      FlattenMembers(cols[1..], c);
      if c in Flatten(cols[1..]) {
        var k :| 0 <= k < |cols[1..]| && c in cols[1..][k].cards;
        assert c in cols[k + 1].cards;
      }
      if exists k :: 0 <= k < |cols| && c in cols[k].cards {
        var k :| 0 <= k < |cols| && c in cols[k].cards;
        if k > 0 {
          assert c in cols[1..][k - 1].cards;
        }
      }
    }
  }

  /** handleDragStart: the dragged card, found among all displayed cards. */
  function DragStart(cols: seq<Column>, activeId: Id): (r: Option<Card>)
    ensures r.Some? ==> r.value.id == activeId
    ensures r.Some? ==> exists k :: 0 <= k < |cols| && r.value in cols[k].cards
    ensures r.None? ==> forall k :: 0 <= k < |cols| ==> !HasCard(cols[k], activeId)
  {
    var all := Flatten(cols);
    match FindIndex(all, (c: Card) => c.id == activeId)
    case None =>
      assert forall k, i :: 0 <= k < |cols| && 0 <= i < |cols[k].cards| ==> cols[k].cards[i].id != activeId by {
        forall k, i | 0 <= k < |cols| && 0 <= i < |cols[k].cards|
          ensures cols[k].cards[i].id != activeId
        {
          FlattenMembers(cols, cols[k].cards[i]);
        }
      }
      None
    case Some(i) =>
      FlattenMembers(cols, all[i]);
      Some(all[i])
  }

  /** handleDragEnd: which move a drop issues, or `None` for no call. */
  function DragEnd(cols: seq<Column>, activeId: Id, over: Option<Id>): (r: Option<Move>)
    ensures over.None? ==> r.None?
    ensures r.Some? ==> r.value.cardId == activeId
    ensures r.Some? ==> exists s :: 0 <= s < |cols| && HasCard(cols[s], activeId)
    ensures r.Some? ==>
      exists t :: 0 <= t < |cols| && cols[t].id == r.value.stageId && 0 <= r.value.position <= |cols[t].cards|
  {
    match over
    case None => None
    case Some(overId) =>
      match FindIndex(cols, (col: Column) => IsTargetFor(col, overId))
      case None => None
      case Some(t) =>
        var target := cols[t];
        match FindIndex(cols, (col: Column) => HasCard(col, activeId))
        case None => None
        case Some(s) =>
          if cols[s].id == target.id && overId == target.id then None
          else if overId == target.id then Some(Move(activeId, target.id, |target.cards|))
          else
            match FindIndex(target.cards, (c: Card) => c.id == overId)
            case Some(k) => Some(Move(activeId, target.id, k))
            case None => Some(Move(activeId, target.id, |target.cards|))
  }

  /** `t` is the column `stages.find(...)` returns for the drop target. */
  ghost predicate FirstTarget(cols: seq<Column>, overId: Id, t: int)
  {
    0 <= t < |cols| && IsTargetFor(cols[t], overId) &&
    forall j :: 0 <= j < t ==> !IsTargetFor(cols[j], overId)
  }

  /** `s` is the column `stages.find(...)` returns for the dragged card. */
  ghost predicate FirstSource(cols: seq<Column>, cardId: Id, s: int)
  {
    0 <= s < |cols| && HasCard(cols[s], cardId) &&
    forall j :: 0 <= j < s ==> !HasCard(cols[j], cardId)
  }

  lemma DragEndNoTarget(cols: seq<Column>, activeId: Id, overId: Id)
    requires forall j :: 0 <= j < |cols| ==> !IsTargetFor(cols[j], overId)
    ensures DragEnd(cols, activeId, Some(overId)).None?
  {
  }

  lemma DragEndNoSource(cols: seq<Column>, activeId: Id, overId: Id)
    requires forall j :: 0 <= j < |cols| ==> !HasCard(cols[j], activeId)
    ensures DragEnd(cols, activeId, Some(overId)).None?
  {
  }

  /** Dropping a card on the header of the column it already sits in. */
  lemma DragEndOwnHeaderIsNoop(cols: seq<Column>, activeId: Id, t: int, s: int)
    requires 0 <= t < |cols| && FirstTarget(cols, cols[t].id, t)
    requires FirstSource(cols, activeId, s)
    requires cols[s].id == cols[t].id
    ensures DragEnd(cols, activeId, Some(cols[t].id)).None?
  {
    var overId := cols[t].id;
    var ft := FindIndex(cols, (col: Column) => IsTargetFor(col, overId));
    assert ft == Some(t);
    var fs := FindIndex(cols, (col: Column) => HasCard(col, activeId));
    assert fs == Some(s);
  }

  /** Dropping on another column's header appends: the new position is that
      column's card count. */
  lemma DragEndOnHeaderAppends(cols: seq<Column>, activeId: Id, t: int, s: int)
    requires 0 <= t < |cols| && FirstTarget(cols, cols[t].id, t)
    requires FirstSource(cols, activeId, s)
    requires cols[s].id != cols[t].id
    ensures DragEnd(cols, activeId, Some(cols[t].id)) == Some(Move(activeId, cols[t].id, |cols[t].cards|))
  {
    var overId := cols[t].id;
    assert FindIndex(cols, (col: Column) => IsTargetFor(col, overId)) == Some(t);
    assert FindIndex(cols, (col: Column) => HasCard(col, activeId)) == Some(s);
  }

  /** Dropping on a card (whose id is not a column id) issues the card's
      index in its column as the new position: the length fallback of the
      source cannot be reached, since the column was chosen for holding it. */
  lemma DragEndOnCardUsesIndex(cols: seq<Column>, activeId: Id, overId: Id, t: int, k: int)
    requires FirstTarget(cols, overId, t)
    requires cols[t].id != overId
    requires 0 <= k < |cols[t].cards| && cols[t].cards[k].id == overId
    requires forall j :: 0 <= j < k ==> cols[t].cards[j].id != overId
    requires exists s :: 0 <= s < |cols| && HasCard(cols[s], activeId)
    ensures DragEnd(cols, activeId, Some(overId)) == Some(Move(activeId, cols[t].id, k))
  {
    assert FindIndex(cols, (col: Column) => IsTargetFor(col, overId)) == Some(t);
    var fk := FindIndex(cols[t].cards, (c: Card) => c.id == overId);
    assert fk == Some(k);
  }

  // -----------------------------------------------------------------------
  // Index versus stored position
  // -----------------------------------------------------------------------

  predicate Ascending(ps: seq<int>)
  {
    forall i :: 0 < i < |ps| ==> ps[i - 1] <= ps[i]
  }

  /** The column's positions with `p` placed at display slot `k`: where the
      dropped card is meant to land ("put at the end", "insert before it"). */
  function PlacedAt(cards: seq<Card>, k: nat, p: int): seq<int>
    requires k <= |cards|
  {
    Cards.Positions(cards[..k]) + [p] + Cards.Positions(cards[k..])
  }

  /** The slot the drop aims at: the end of the column for a header drop,
      the over card's slot for a card drop. */
  function IntendedSlot(target: Column, overId: Id): (k: nat)
    ensures k <= |target.cards|
  {
    if overId == target.id then |target.cards|
    else match FindIndex(target.cards, (c: Card) => c.id == overId)
      case Some(k) => k
      case None => |target.cards|
  }

  /** The position that realises the intended slot in a column sorted by
      position: the stored position of the over card, or one past the
      column's largest position for a header drop (0 when it is empty). */
  function IntendedPosition(target: Column, overId: Id): int
  {
    var k := IntendedSlot(target, overId);
    if k < |target.cards| then target.cards[k].position
    else if target.cards == [] then 0
    else MaxOf(Cards.Positions(target.cards)) + 1
  }

  /** handleDragEnd as evidently intended: same decision, but the position
      sent is the stored position the slot calls for, not the slot index. */
  function DragEndIntended(cols: seq<Column>, activeId: Id, over: Option<Id>): (r: Option<Move>)
    ensures r.Some? <==> DragEnd(cols, activeId, over).Some?
    ensures r.Some? ==> r.value.cardId == activeId && r.value.stageId == DragEnd(cols, activeId, over).value.stageId
  {
    match DragEnd(cols, activeId, over)
    case None => None
    case Some(m) =>
      var overId := over.value;
      var t := FindIndex(cols, (col: Column) => IsTargetFor(col, overId)).value;
      Some(Move(m.cardId, m.stageId, IntendedPosition(cols[t], overId)))
  }

  /** In a column displayed in ascending position order, the intended
      position keeps that order with the card placed at the intended slot. */
  lemma IntendedPositionKeepsOrder(target: Column, overId: Id)
    requires Ascending(Cards.Positions(target.cards))
    ensures Ascending(PlacedAt(target.cards, IntendedSlot(target, overId), IntendedPosition(target, overId)))
  {
    var cs := target.cards;
    var k := IntendedSlot(target, overId);
    var p := IntendedPosition(target, overId);
    var placed := PlacedAt(cs, k, p);
    assert |placed| == |cs| + 1;
    if k < |cs| {
      assert p == cs[k].position;
    } else if cs != [] {
      assert forall i :: 0 <= i < |cs| ==> cs[i].position in Cards.Positions(cs);
    }
    forall i | 0 < i < |placed|
      ensures placed[i - 1] <= placed[i]
    {
      assert forall j :: 0 <= j < k ==> placed[j] == cs[j].position;
      assert placed[k] == p;
      assert forall j :: k < j < |placed| ==> placed[j] == cs[j - 1].position;
      if k < |cs| && i < k {
        assert Cards.Positions(cs)[i - 1] <= Cards.Positions(cs)[i];
      } else if i > k + 1 {
        assert Cards.Positions(cs)[i - 2] <= Cards.Positions(cs)[i - 1];
      } else if i == k && k > 0 && k < |cs| {
        assert Cards.Positions(cs)[k - 1] <= Cards.Positions(cs)[k];
      }
    }
  }

  /** A card in stage `stageId` at `position`, for the example below. */
  function Lead(id: Id, stageId: Id, position: int): Card
  {
    Card(id, "", None, stageId, "b", position, None, None, "new", "u", 0)
  }

  /** The slot index sent as written does not keep the column's order once
      stored positions differ from slot indices (after a deletion, or after
      earlier moves): dropping card "x" on card "d" (slot 1, position 6) of a
      column holding positions 5 and 6 sends position 1, which sorts the card
      before the card at position 5 instead of between the two. */
  lemma SlotIndexBreaksOrder()
    ensures
      var cols := [Column("s1", [Lead("c", "s1", 5), Lead("d", "s1", 6)]), Column("s2", [Lead("x", "s2", 0)])];
      DragEnd(cols, "x", Some("d")) == Some(Move("x", "s1", 1)) &&
      Ascending(Cards.Positions(cols[0].cards)) &&
      !Ascending(PlacedAt(cols[0].cards, 1, 1)) &&
      DragEndIntended(cols, "x", Some("d")) == Some(Move("x", "s1", 6))
  {
    var cols := [Column("s1", [Lead("c", "s1", 5), Lead("d", "s1", 6)]), Column("s2", [Lead("x", "s2", 0)])];
    assert cols[0].cards[1].id == "d";
    assert HasCard(cols[0], "d");
    assert !HasCard(cols[0], "x") by {
      assert cols[0].cards[0].id != "x" && cols[0].cards[1].id != "x";
    }
    assert cols[1].cards[0].id == "x";
    assert HasCard(cols[1], "x");
    assert IsTargetFor(cols[0], "d");
    assert FindIndex(cols, (col: Column) => IsTargetFor(col, "d")) == Some(0);
    assert FindIndex(cols, (col: Column) => HasCard(col, "x")) == Some(1);
    assert FindIndex(cols[0].cards, (c: Card) => c.id == "d") == Some(1);
    var placed := PlacedAt(cols[0].cards, 1, 1);
    assert placed[0] == 5 && placed[1] == 1;
  }
}
