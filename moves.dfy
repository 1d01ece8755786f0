/** The two positional operations of the store, `moveList` and `moveCard`,
    as functions from the old `boards` to the new one. Both find the board
    with `findIndex` (the first board carrying the id) and rebuild only that
    board; positions are counted the way `splice` counts them. */
module Moves {
  import opened Types
  import opened Seqs
  import opened BoardOps

  /** What `moveList` needs of its caller: when the board exists,
      `sourceIndex` names one of its lists (`splice` on a position past the
      end would remove nothing and insert `undefined`). */
  predicate MoveListInRange(boards: seq<Board>, boardId: string, sourceIndex: nat)
  {
    match BoardIndex(boards, boardId)
    case None => true
    case Some(bi) => sourceIndex < |boards[bi].lists|
  }

  /** The boards after `moveList(boardId, sourceIndex, destinationIndex)`. */
  function ListMoved(boards: seq<Board>, boardId: string, sourceIndex: nat, destinationIndex: nat): (r: seq<Board>)
    requires MoveListInRange(boards, boardId, sourceIndex)
    ensures |r| == |boards|
    ensures NoBoard(boards, boardId) ==> r == boards
    ensures forall k :: 0 <= k < |boards| && BoardIndex(boards, boardId) != Some(k) ==> r[k] == boards[k]
    ensures BoardIndex(boards, boardId).Some? ==>
      var bi := BoardIndex(boards, boardId).value;
      SameBoardHeader(r[bi], boards[bi]) &&
      |r[bi].lists| == |boards[bi].lists| &&
      multiset(r[bi].lists) == multiset(boards[bi].lists) &&
      r[bi].lists[Clamp(destinationIndex, |boards[bi].lists| - 1)] == boards[bi].lists[sourceIndex] &&
      r[bi].lists == Move(boards[bi].lists, sourceIndex, destinationIndex)
  {
    match BoardIndex(boards, boardId)
    case None => boards
    case Some(bi) => boards[bi := boards[bi].(lists := Move(boards[bi].lists, sourceIndex, destinationIndex))]
  }

  /** The board exists and holds both lists, so `moveCard` does something. */
  predicate MoveCardResolves(boards: seq<Board>, boardId: string, sourceListId: string, destinationListId: string)
  {
    match BoardIndex(boards, boardId)
    case None => false
    case Some(bi) =>
      ListIndex(boards[bi].lists, sourceListId).Some? && ListIndex(boards[bi].lists, destinationListId).Some?
  }

  /** What `moveCard` needs of its caller: when the board and both lists
      exist, `sourceIndex` names a card of the source list. */
  predicate MoveCardInRange(boards: seq<Board>, boardId: string, sourceListId: string, destinationListId: string, sourceIndex: nat)
  {
    match BoardIndex(boards, boardId)
    case None => true
    case Some(bi) =>
      match ListIndex(boards[bi].lists, sourceListId)
      case None => true
      case Some(s) => ListIndex(boards[bi].lists, destinationListId).None? || sourceIndex < |boards[bi].lists[s].cards|
  }

  /** The lists of one board after moving the card at `sourceIndex` of list
      `s` to `destinationIndex` of list `d`. When `s == d` the destination
      counts in the list after removal. */
  function CardsMoved(lists: seq<List>, s: nat, d: nat, sourceIndex: nat, destinationIndex: nat): (r: seq<List>)
    requires s < |lists| && d < |lists| && sourceIndex < |lists[s].cards|
    ensures |r| == |lists|
    ensures forall k :: 0 <= k < |lists| ==> SameListHeader(r[k], lists[k])
    ensures forall k :: 0 <= k < |lists| && k != s && k != d ==> r[k] == lists[k]
    ensures s == d ==> r[s].cards == Move(lists[s].cards, sourceIndex, destinationIndex)
    ensures s != d ==> r[s].cards == RemoveAt(lists[s].cards, sourceIndex)
    ensures s != d ==> r[d].cards == InsertAt(lists[d].cards, destinationIndex, lists[s].cards[sourceIndex])
  {
    var card := lists[s].cards[sourceIndex];
    var rest := RemoveAt(lists[s].cards, sourceIndex);
    if s == d then
      lists[s := lists[s].(cards := InsertAt(rest, destinationIndex, card))]
    else
      lists[d := lists[d].(cards := InsertAt(lists[d].cards, destinationIndex, card))][s := lists[s].(cards := rest)]
  }

  /** The boards after
      `moveCard(boardId, sourceListId, destinationListId, sourceIndex, destinationIndex)`. */
  function CardMoved(boards: seq<Board>, boardId: string, sourceListId: string, destinationListId: string,
                     sourceIndex: nat, destinationIndex: nat): (r: seq<Board>)
    requires MoveCardInRange(boards, boardId, sourceListId, destinationListId, sourceIndex)
    ensures |r| == |boards|
    ensures !MoveCardResolves(boards, boardId, sourceListId, destinationListId) ==> r == boards
    ensures forall k :: 0 <= k < |boards| && BoardIndex(boards, boardId) != Some(k) ==> r[k] == boards[k]
    ensures BoardIndex(boards, boardId).Some? ==>
      var bi := BoardIndex(boards, boardId).value;
      SameBoardHeader(r[bi], boards[bi]) && |r[bi].lists| == |boards[bi].lists|
    ensures MoveCardResolves(boards, boardId, sourceListId, destinationListId) ==>
      var bi := BoardIndex(boards, boardId).value;
      var lists := boards[bi].lists;
      r[bi].lists == CardsMoved(lists, ListIndex(lists, sourceListId).value, ListIndex(lists, destinationListId).value,
                                sourceIndex, destinationIndex)
  {
    match BoardIndex(boards, boardId)
    case None => boards
    case Some(bi) =>
      match ListIndex(boards[bi].lists, sourceListId)
      case None => boards
      case Some(s) =>
        match ListIndex(boards[bi].lists, destinationListId)
        case None => boards
        case Some(d) =>
          boards[bi := boards[bi].(lists := CardsMoved(boards[bi].lists, s, d, sourceIndex, destinationIndex))]
  }
}
