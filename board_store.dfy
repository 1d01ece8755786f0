/** The board store: the two pieces of state every operation replaces,
    `boards` and `activeBoard`, and one method per store operation. The
    map/filter operations assign the value their function in `BoardOps`
    computes; the two moves copy the board and its lists, splice the copies
    and write them back slot by slot, as the store does. */
module BoardStore {
  import opened Types
  import opened Seqs
  import opened BoardOps
  import opened Moves

  class Store {
    var boards: seq<Board>
    /** The selected board's id, or none (`null`). It need not name a
        stored board. */
    var activeBoard: Option<string>

    /** The initial state: one default board, and as `activeBoard` the id of
        a second default board that is built only for its id. */
    constructor (template: TemplateIds, secondDefaultBoardId: string)
      ensures boards == [DefaultBoard(template)]
      ensures activeBoard == Some(secondDefaultBoardId)
    {
      boards := [DefaultBoard(template)];
      activeBoard := Some(secondDefaultBoardId);
    }

    /** `setActiveBoard`: no check that a board carries the id. */
    method SetActiveBoard(id: string)
      modifies this
      ensures activeBoard == Some(id)
      ensures boards == old(boards)
    {
      activeBoard := Some(id);
    }

    /** `getActiveBoard`: the first board carrying the active id, or none. */
    method GetActiveBoard() returns (r: Option<Board>)
      ensures r.Some? <==> activeBoard.Some? && !NoBoard(boards, activeBoard.value)
      ensures r.Some? ==> r.value in boards && r.value.id == activeBoard.value
      ensures r == ActiveBoardOf(boards, activeBoard)
    {
      r := ActiveBoardOf(boards, activeBoard);
    }

    /** `createBoard`: the starter board goes at the end and becomes active. */
    method CreateBoard(title: string, ids: NewBoardIds)
      modifies this
      ensures boards == old(boards) + [StarterBoard(title, ids)]
      ensures activeBoard == Some(ids.board)
    {
      boards := AddBoard(boards, title, ids);
      activeBoard := Some(ids.board);
    }

    method UpdateBoardTitle(id: string, title: string)
      modifies this
      ensures boards == RenameBoard(old(boards), id, title)
      ensures activeBoard == old(activeBoard)
    {
      boards := RenameBoard(boards, id, title);
    }

    method UpdateBoardBackground(id: string, color: string)
      modifies this
      ensures boards == RecolorBoard(old(boards), id, color)
      ensures activeBoard == old(activeBoard)
    {
      boards := RecolorBoard(boards, id, color);
    }

    /** `deleteBoard`: the active board becomes the first remaining one,
        whichever board was deleted and even when none was. */
    method DeleteBoard(id: string)
      modifies this
      ensures boards == RemoveBoard(old(boards), id)
      ensures activeBoard == FirstBoardId(boards)
    {
      var updatedBoards := RemoveBoard(boards, id);
      boards := updatedBoards;
      activeBoard := FirstBoardId(updatedBoards);
    }

    method CreateList(boardId: string, title: string, listId: string)
      modifies this
      ensures boards == AddList(old(boards), boardId, listId, title)
      ensures activeBoard == old(activeBoard)
    {
      boards := AddList(boards, boardId, listId, title);
    }

    method UpdateListTitle(boardId: string, listId: string, title: string)
      modifies this
      ensures boards == RenameList(old(boards), boardId, listId, title)
      ensures activeBoard == old(activeBoard)
    {
      boards := RenameList(boards, boardId, listId, title);
    }

    method UpdateListBackground(boardId: string, listId: string, color: string)
      modifies this
      ensures boards == RecolorList(old(boards), boardId, listId, color)
      ensures activeBoard == old(activeBoard)
    {
      boards := RecolorList(boards, boardId, listId, color);
    }

    method DeleteList(boardId: string, listId: string)
      modifies this
      ensures boards == RemoveList(old(boards), boardId, listId)
      ensures activeBoard == old(activeBoard)
    {
      boards := RemoveList(boards, boardId, listId);
    }

    /** `moveList`: take the list at `sourceIndex` out of a copy of the
        board's lists and splice it back in at `destinationIndex`. */
    method MoveList(boardId: string, sourceIndex: nat, destinationIndex: nat)
      requires MoveListInRange(boards, boardId, sourceIndex)
      modifies this
      ensures boards == ListMoved(old(boards), boardId, sourceIndex, destinationIndex)
      ensures activeBoard == old(activeBoard)
    {
      var boardIndex := BoardIndex(boards, boardId);
      if boardIndex.None? {
        return;
      }
      var bi := boardIndex.value;
      var newBoards := boards;
      var board := newBoards[bi];
      var lists := board.lists;
      var removed := lists[sourceIndex];
      lists := RemoveAt(lists, sourceIndex);
      lists := InsertAt(lists, destinationIndex, removed);
      board := board.(lists := lists);
      newBoards := newBoards[bi := board];
      boards := newBoards;
    }

    method CreateCard(boardId: string, listId: string, title: string, cardId: string, now: Timestamp)
      modifies this
      ensures boards == AddCard(old(boards), boardId, listId, cardId, title, now)
      ensures activeBoard == old(activeBoard)
    {
      boards := AddCard(boards, boardId, listId, cardId, title, now);
    }

    method UpdateCard(boardId: string, listId: string, cardId: string, data: CardPatch)
      modifies this
      ensures boards == BoardOps.UpdateCard(old(boards), boardId, listId, cardId, data)
      ensures activeBoard == old(activeBoard)
    {
      boards := BoardOps.UpdateCard(boards, boardId, listId, cardId, data);
    }

    method UpdateCardBackground(boardId: string, listId: string, cardId: string, color: string)
      modifies this
      ensures boards == RecolorCard(old(boards), boardId, listId, cardId, color)
      ensures activeBoard == old(activeBoard)
    {
      boards := RecolorCard(boards, boardId, listId, cardId, color);
    }

    method DeleteCard(boardId: string, listId: string, cardId: string)
      modifies this
      ensures boards == RemoveCard(old(boards), boardId, listId, cardId)
      ensures activeBoard == old(activeBoard)
    {
      boards := RemoveCard(boards, boardId, listId, cardId);
    }

    /** `moveCard`: copy the board's lists and the source list's cards,
        splice the card out; within one list splice it back into the same
        copy, otherwise into a copy of the destination's cards; then write
        the touched lists and the board back into their slots. */
    method MoveCard(boardId: string, sourceListId: string, destinationListId: string,
                    sourceIndex: nat, destinationIndex: nat)
      requires MoveCardInRange(boards, boardId, sourceListId, destinationListId, sourceIndex)
      modifies this
      ensures boards == CardMoved(old(boards), boardId, sourceListId, destinationListId, sourceIndex, destinationIndex)
      ensures activeBoard == old(activeBoard)
    {
      var boardIndex := BoardIndex(boards, boardId);
      if boardIndex.None? {
        return;
      }
      var bi := boardIndex.value;
      var newBoards := boards;
      var board := newBoards[bi];
      var lists := board.lists;
      var sourceListIndex := ListIndex(lists, sourceListId);
      var destinationListIndex := ListIndex(lists, destinationListId);
      if sourceListIndex.None? || destinationListIndex.None? {
        return;
      }
      var s, d := sourceListIndex.value, destinationListIndex.value;
      assert (sourceListId == destinationListId) == (s == d);
      var sourceCards := lists[s].cards;
      var destinationCards := if sourceListId == destinationListId then sourceCards else lists[d].cards;
      var removed := sourceCards[sourceIndex];
      sourceCards := RemoveAt(sourceCards, sourceIndex);
      if sourceListId == destinationListId {
        sourceCards := InsertAt(sourceCards, destinationIndex, removed);
      } else {
        destinationCards := InsertAt(destinationCards, destinationIndex, removed);
        lists := lists[d := lists[d].(cards := destinationCards)];
      }
      lists := lists[s := lists[s].(cards := sourceCards)];
      board := board.(lists := lists);
      newBoards := newBoards[bi := board];
      boards := newBoards;
    }

    method AddLabelToCard(boardId: string, listId: string, cardId: string, newLabel: Label)
      modifies this
      ensures boards == BoardOps.AddLabelToCard(old(boards), boardId, listId, cardId, newLabel)
      ensures activeBoard == old(activeBoard)
    {
      boards := BoardOps.AddLabelToCard(boards, boardId, listId, cardId, newLabel);
    }

    method RemoveLabelFromCard(boardId: string, listId: string, cardId: string, labelId: string)
      modifies this
      ensures boards == BoardOps.RemoveLabelFromCard(old(boards), boardId, listId, cardId, labelId)
      ensures activeBoard == old(activeBoard)
    {
      boards := BoardOps.RemoveLabelFromCard(boards, boardId, listId, cardId, labelId);
    }
  }
}
