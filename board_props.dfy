/** What the store's operations promise beyond their own contracts: cards
    are never created or lost by a move, label changes are idempotent, the
    background shortcut is an ordinary card update, and the active board
    behaves as the store sets it. */
module BoardProps {
  import opened Types
  import opened Seqs
  import opened BoardOps
  import opened Moves

  // ---------------------------------------------------------------------
  // Cards on a board
  // ---------------------------------------------------------------------

  /** Every card of a board, list after list. */
  function AllCards(lists: seq<List>): (cs: seq<Card>)
  {
    if |lists| == 0 then [] else lists[0].cards + AllCards(lists[1..])
  }

  /** Replacing one list changes the board's cards by exactly the cards of
      the old and the new list. */
  lemma {:induction false} AllCardsReplace(lists: seq<List>, i: nat, l: List)
    requires i < |lists|
    ensures multiset(AllCards(lists[i := l])) + multiset(lists[i].cards) ==
            multiset(AllCards(lists)) + multiset(l.cards)
  {
    var after := lists[i := l];
    if i == 0 {
      assert after[1..] == lists[1..];
    } else {
      assert after[1..] == lists[1..][i - 1 := l];
      AllCardsReplace(lists[1..], i - 1, l);
      var (head, oldTail, newTail) := (multiset(lists[0].cards), multiset(AllCards(lists[1..])), multiset(AllCards(after[1..])));
      assert newTail + multiset(lists[i].cards) == oldTail + multiset(l.cards);
      calc {
        multiset(AllCards(after)) + multiset(lists[i].cards);
        head + newTail + multiset(lists[i].cards);
        head + (newTail + multiset(lists[i].cards));
        head + (oldTail + multiset(l.cards));
        multiset(AllCards(lists)) + multiset(l.cards);
      }
    }
  }

  /** `moveCard` within one board: the board holds the same cards, as many
      of each, as before. */
  lemma CardsMovedKeepsCards(lists: seq<List>, s: nat, d: nat, sourceIndex: nat, destinationIndex: nat)
    requires s < |lists| && d < |lists| && sourceIndex < |lists[s].cards|
    ensures multiset(AllCards(CardsMoved(lists, s, d, sourceIndex, destinationIndex))) == multiset(AllCards(lists))
    ensures |AllCards(CardsMoved(lists, s, d, sourceIndex, destinationIndex))| == |AllCards(lists)|
  {
    var r := CardsMoved(lists, s, d, sourceIndex, destinationIndex);
    if s == d {
      SameListKeepsCards(lists, s, r);
    } else {
      CrossListKeepsCards(lists, s, d, sourceIndex, r);
    }
    MultisetSize(AllCards(r), AllCards(lists));
  }

  lemma SameListKeepsCards(lists: seq<List>, s: nat, r: seq<List>)
    requires s < |lists| && |r| == |lists|
    requires forall k :: 0 <= k < |lists| && k != s ==> r[k] == lists[k]
    requires multiset(r[s].cards) == multiset(lists[s].cards)
    ensures multiset(AllCards(r)) == multiset(AllCards(lists))
  {
    assert r == lists[s := r[s]];
    AllCardsReplace(lists, s, r[s]);
    var (after, before, part) := (multiset(AllCards(r)), multiset(AllCards(lists)), multiset(lists[s].cards));
    forall y ensures after[y] == before[y] {
      assert (after + part)[y] == (before + part)[y];
    }
  }

  lemma CrossListKeepsCards(lists: seq<List>, s: nat, d: nat, sourceIndex: nat, r: seq<List>)
    requires s < |lists| && d < |lists| && s != d && sourceIndex < |lists[s].cards| && |r| == |lists|
    requires forall k :: 0 <= k < |lists| && k != s && k != d ==> r[k] == lists[k]
    requires multiset(r[s].cards) + multiset{lists[s].cards[sourceIndex]} == multiset(lists[s].cards)
    requires multiset(r[d].cards) == multiset(lists[d].cards) + multiset{lists[s].cards[sourceIndex]}
    ensures multiset(AllCards(r)) == multiset(AllCards(lists))
  {
    var mid := lists[d := r[d]];
    assert r == mid[s := r[s]];
    AllCardsReplace(lists, d, r[d]);
    AllCardsReplace(mid, s, r[s]);
    TransferBalances(multiset(AllCards(r)), multiset(AllCards(mid)), multiset(AllCards(lists)),
      multiset(r[s].cards), multiset(lists[s].cards), multiset(r[d].cards), multiset(lists[d].cards),
      lists[s].cards[sourceIndex]);
  }

  /** Taking one element out of one part and putting it into another
      leaves the whole as it was. */
  lemma TransferBalances<T>(after: multiset<T>, mid: multiset<T>, before: multiset<T>,
                            newSrc: multiset<T>, oldSrc: multiset<T>, newDst: multiset<T>, oldDst: multiset<T>, x: T)
    requires after + oldSrc == mid + newSrc
    requires mid + oldDst == before + newDst
    requires newSrc + multiset{x} == oldSrc
    requires newDst == oldDst + multiset{x}
    ensures after == before
  {
    forall y ensures after[y] == before[y] {
      assert (after + oldSrc)[y] == (mid + newSrc)[y];
      assert (mid + oldDst)[y] == (before + newDst)[y];
      assert (newSrc + multiset{x})[y] == oldSrc[y];
      assert newDst[y] == (oldDst + multiset{x})[y];
    }
  }

  lemma MultisetSize<T>(a: seq<T>, b: seq<T>)
    requires multiset(a) == multiset(b)
    ensures |a| == |b|
  {
    assert |a| == |multiset(a)| && |b| == |multiset(b)|;
  }

  /** `moveCard` keeps every board's cards: the moved board holds the same
      cards as before and every other board is untouched. */
  lemma CardMovedKeepsCards(boards: seq<Board>, boardId: string, sourceListId: string, destinationListId: string,
                            sourceIndex: nat, destinationIndex: nat)
    requires MoveCardInRange(boards, boardId, sourceListId, destinationListId, sourceIndex)
    ensures var r := CardMoved(boards, boardId, sourceListId, destinationListId, sourceIndex, destinationIndex);
      forall k :: 0 <= k < |boards| ==> multiset(AllCards(r[k].lists)) == multiset(AllCards(boards[k].lists))
  {
    var r := CardMoved(boards, boardId, sourceListId, destinationListId, sourceIndex, destinationIndex);
    if MoveCardResolves(boards, boardId, sourceListId, destinationListId) {
      var bi := BoardIndex(boards, boardId).value;
      var lists := boards[bi].lists;
      var s := ListIndex(lists, sourceListId).value;
      var d := ListIndex(lists, destinationListId).value;
      CardsMovedKeepsCards(lists, s, d, sourceIndex, destinationIndex);
    }
  }

  /** Same-list `moveCard`: the destination counts in the list after the
      card was taken out, so moving and then moving back restores the list. */
  lemma SameListMoveUndone(lists: seq<List>, s: nat, sourceIndex: nat, destinationIndex: nat)
    requires s < |lists| && sourceIndex < |lists[s].cards|
    ensures var back := Clamp(destinationIndex, |lists[s].cards| - 1);
      CardsMoved(CardsMoved(lists, s, s, sourceIndex, destinationIndex), s, s, back, sourceIndex) == lists
  {
    var once := CardsMoved(lists, s, s, sourceIndex, destinationIndex);
    var back := Clamp(destinationIndex, |lists[s].cards| - 1);
    var twice := CardsMoved(once, s, s, back, sourceIndex);
    MoveUndone(lists[s].cards, sourceIndex, destinationIndex);
    assert twice[s] == lists[s];
    assert twice == lists;
  }

  /** Same-list `moveCard` on `[A, B, C, D]`: from 0 to 2 gives
      `[B, C, A, D]`, from 3 to 0 gives `[D, A, B, C]`. */
  lemma SameListMoveExamples(l: List, a: Card, b: Card, c: Card, d: Card)
    requires l.cards == [a, b, c, d]
    ensures CardsMoved([l], 0, 0, 0, 2)[0].cards == [b, c, a, d]
    ensures CardsMoved([l], 0, 0, 3, 0)[0].cards == [d, a, b, c]
  {
    MoveForward(a, b, c, d);
    MoveBackward(a, b, c, d);
  }

  lemma MoveForward(a: Card, b: Card, c: Card, d: Card)
    ensures Move([a, b, c, d], 0, 2) == [b, c, a, d]
  {
    TakeFirst(a, b, c, d);
    PutThird(b, c, a, d);
  }

  lemma MoveBackward(a: Card, b: Card, c: Card, d: Card)
    ensures Move([a, b, c, d], 3, 0) == [d, a, b, c]
  {
    TakeLast(a, b, c, d);
    PutFront(d, a, b, c);
  }

  // The splice steps of the examples above, one lemma each: a single
  // concrete splice per lemma keeps every proof well inside the solver's
  // resource limit.

  lemma TakeFirst(a: Card, b: Card, c: Card, d: Card)
    ensures RemoveAt([a, b, c, d], 0) == [b, c, d]
  {
    var s := [a, b, c, d];
    assert s[..0] == [] && s[1..] == [b, c, d];
  }

  lemma TakeLast(a: Card, b: Card, c: Card, d: Card)
    ensures RemoveAt([a, b, c, d], 3) == [a, b, c]
  {
    var s := [a, b, c, d];
    assert s[..3] == [a, b, c] && s[4..] == [];
  }

  lemma PutThird(b: Card, c: Card, x: Card, d: Card)
    ensures InsertAt([b, c, d], 2, x) == [b, c, x, d]
  {
    var t := [b, c, d];
    assert t[..2] == [b, c] && t[2..] == [d];
    assert InsertAt(t, 2, x) == [b, c] + [x] + [d];
  }

  lemma PutFront(x: Card, a: Card, b: Card, c: Card)
    ensures InsertAt([a, b, c], 0, x) == [x, a, b, c]
  {
    var t := [a, b, c];
    assert t[..0] == [] && t[0..] == t;
    assert InsertAt(t, 0, x) == [] + [x] + t;
  }

  /** Cross-list `moveCard`: source `[A, B, C]`, destination `[X, Y]`, from
      1 to 1 gives source `[A, C]` and destination `[X, B, Y]`. */
  lemma CrossListMoveExample(src: List, dst: List, a: Card, b: Card, c: Card, x: Card, y: Card)
    requires src.cards == [a, b, c] && dst.cards == [x, y]
    ensures CardsMoved([src, dst], 0, 1, 1, 1)[0].cards == [a, c]
    ensures CardsMoved([src, dst], 0, 1, 1, 1)[1].cards == [x, b, y]
  {
    TakeMiddle(a, b, c);
    PutMiddle(x, b, y);
  }

  // The two splice steps of the cross-list example, one lemma each for the
  // same reason.

  lemma TakeMiddle(a: Card, b: Card, c: Card)
    ensures RemoveAt([a, b, c], 1) == [a, c]
  {
    var s := [a, b, c];
    assert s[..1] == [a] && s[2..] == [c];
    assert RemoveAt(s, 1) == [a] + [c];
  }

  lemma PutMiddle(x: Card, b: Card, y: Card)
    ensures InsertAt([x, y], 1, b) == [x, b, y]
  {
    var s := [x, y];
    assert s[..1] == [x] && s[1..] == [y];
    assert InsertAt(s, 1, b) == [x] + [b] + [y];
  }

  /** Cross-list `moveCard` in terms of positions: the source list loses
      exactly the card at `sourceIndex`, the destination list gains it at
      `destinationIndex` (or at its end), and every other card stays in
      order around it. */
  lemma CrossListMove(lists: seq<List>, s: nat, d: nat, sourceIndex: nat, destinationIndex: nat)
    requires s < |lists| && d < |lists| && s != d && sourceIndex < |lists[s].cards|
    ensures var r := CardsMoved(lists, s, d, sourceIndex, destinationIndex);
      var (src, dst, at) := (lists[s].cards, lists[d].cards, Clamp(destinationIndex, |lists[d].cards|));
      |r[s].cards| == |src| - 1 && |r[d].cards| == |dst| + 1 &&
      r[s].cards == src[..sourceIndex] + src[sourceIndex + 1..] &&
      r[d].cards == dst[..at] + [src[sourceIndex]] + dst[at..]
  {
  }

  /** `moveList` is undone by the move back. */
  lemma ListMovedUndone(boards: seq<Board>, boardId: string, sourceIndex: nat, destinationIndex: nat)
    requires MoveListInRange(boards, boardId, sourceIndex)
    requires BoardIndex(boards, boardId).Some?
    ensures var n := |boards[BoardIndex(boards, boardId).value].lists|;
      var once := ListMoved(boards, boardId, sourceIndex, destinationIndex);
      MoveListInRange(once, boardId, Clamp(destinationIndex, n - 1)) &&
      ListMoved(once, boardId, Clamp(destinationIndex, n - 1), sourceIndex) == boards
  {
    var bi := BoardIndex(boards, boardId).value;
    var lists := boards[bi].lists;
    var back := Clamp(destinationIndex, |lists| - 1);
    var once := boards[bi := boards[bi].(lists := Move(lists, sourceIndex, destinationIndex))];
    assert ListMoved(boards, boardId, sourceIndex, destinationIndex) == once;
    BoardIndexKept(boards, bi, once[bi]);
    MoveUndone(lists, sourceIndex, destinationIndex);
    assert ListMoved(once, boardId, back, sourceIndex) == once[bi := boards[bi]];
    assert once[bi := boards[bi]] == boards;
  }

  /** Replacing a board by one with the same id keeps `findIndex` where it
      was. */
  lemma BoardIndexKept(boards: seq<Board>, bi: nat, b: Board)
    requires bi < |boards| && b.id == boards[bi].id
    ensures forall id :: BoardIndex(boards[bi := b], id) == BoardIndex(boards, id)
  {
    forall id ensures BoardIndex(boards[bi := b], id) == BoardIndex(boards, id) {
      var after := boards[bi := b];
      assert forall k :: 0 <= k < |boards| ==> after[k].id == boards[k].id;
      match BoardIndex(boards, id)
      case None =>
      case Some(k) =>
    }
  }

  // ---------------------------------------------------------------------
  // Labels
  // ---------------------------------------------------------------------

  /** How many labels carry the id. */
  function LabelCount(labels: seq<Label>, labelId: string): (n: nat)
    ensures n <= |labels|
    ensures n == 0 <==> forall k :: 0 <= k < |labels| ==> labels[k].id != labelId
  {
    if |labels| == 0 then 0
    else (if labels[0].id == labelId then 1 else 0) + LabelCount(labels[1..], labelId)
  }

  lemma {:induction false} LabelCountAppend(labels: seq<Label>, l: Label, labelId: string)
    ensures LabelCount(labels + [l], labelId) == LabelCount(labels, labelId) + (if l.id == labelId then 1 else 0)
  {
    if |labels| == 0 {
      assert labels + [l] == [l];
    } else {
      assert (labels + [l])[1..] == labels[1..] + [l];
      LabelCountAppend(labels[1..], l, labelId);
    }
  }

  /** `addLabelToCard` twice is `addLabelToCard` once. */
  lemma AddLabelIdempotent(c: Card, newLabel: Label)
    ensures WithLabel(WithLabel(c, newLabel), newLabel) == WithLabel(c, newLabel)
  {
    if !HasLabel(c, newLabel.id) {
      var once := WithLabel(c, newLabel);
      assert once.labels[|c.labels|] == newLabel;
    }
  }

  /** On a card holding at most one label with the id, adding the label
      (once or twice) leaves exactly one label with that id. */
  lemma AddLabelLeavesOne(c: Card, newLabel: Label)
    requires LabelCount(c.labels, newLabel.id) <= 1
    ensures LabelCount(WithLabel(c, newLabel).labels, newLabel.id) == 1
    ensures LabelCount(WithLabel(WithLabel(c, newLabel), newLabel).labels, newLabel.id) == 1
  {
    AddLabelIdempotent(c, newLabel);
    if !HasLabel(c, newLabel.id) {
      LabelCountAppend(c.labels, newLabel, newLabel.id);
    }
  }

  /** Removing a label's id after adding the label leaves the card as
      removing it alone would: the label is appended at the end and
      filtering keeps the other labels in order. */
  lemma RemoveAfterAdd(c: Card, newLabel: Label)
    ensures WithoutLabel(WithLabel(c, newLabel), newLabel.id) == WithoutLabel(c, newLabel.id)
  {
    if !HasLabel(c, newLabel.id) {
      FilterConcat(c.labels, [newLabel], (l: Label) => l.id != newLabel.id);
    }
  }

  /** `removeLabelFromCard` twice is `removeLabelFromCard` once. */
  lemma RemoveLabelIdempotent(c: Card, labelId: string)
    ensures WithoutLabel(WithoutLabel(c, labelId), labelId) == WithoutLabel(c, labelId)
  {
  }

  /** `removeLabelFromCard` keeps the other labels in their order and with
      their multiplicity: removing from `a + b` removes from each part, a
      label with the id goes, and any other label stays. */
  lemma WithoutLabelSplits(c: Card, a: seq<Label>, b: seq<Label>, x: Label, labelId: string)
    ensures WithoutLabel(c.(labels := a + b), labelId).labels ==
            WithoutLabel(c.(labels := a), labelId).labels + WithoutLabel(c.(labels := b), labelId).labels
    ensures WithoutLabel(c.(labels := [x]), labelId).labels == if x.id == labelId then [] else [x]
  {
    FilterConcat(a, b, (l: Label) => l.id != labelId);
    assert [x][1..] == [];
  }

  // ---------------------------------------------------------------------
  // Card updates
  // ---------------------------------------------------------------------

  /** The patch `{ backgroundColor: color }`. */
  function BackgroundPatch(color: string): (p: CardPatch)
    ensures forall c :: Patched(c, p) == c.(backgroundColor := Some(color))
  {
    EmptyPatch.(backgroundColor := Some(Some(color)))
  }

  /** The empty patch leaves a card as it was. */
  lemma EmptyPatchKeepsCard(c: Card)
    ensures Patched(c, EmptyPatch) == c
  {
  }

  /** Applying the same patch twice is applying it once. */
  lemma PatchIdempotent(c: Card, data: CardPatch)
    ensures Patched(Patched(c, data), data) == Patched(c, data)
  {
  }

  /** `updateCardBackground` is `updateCard` with the patch
      `{ backgroundColor: color }`. */
  lemma RecolorCardIsUpdateCard(boards: seq<Board>, boardId: string, listId: string, cardId: string, color: string)
    ensures RecolorCard(boards, boardId, listId, cardId, color) == UpdateCard(boards, boardId, listId, cardId, BackgroundPatch(color))
  {
    var a := RecolorCard(boards, boardId, listId, cardId, color);
    var b := UpdateCard(boards, boardId, listId, cardId, BackgroundPatch(color));
    forall i | 0 <= i < |boards| ensures a[i] == b[i] {
      forall j | 0 <= j < |boards[i].lists| ensures a[i].lists[j] == b[i].lists[j] {
        assert a[i].lists[j].cards == b[i].lists[j].cards;
      }
      assert a[i].lists == b[i].lists;
    }
  }

  // ---------------------------------------------------------------------
  // Boards and the active board
  // ---------------------------------------------------------------------

  /** After `createBoard` with a fresh id, `getActiveBoard` returns the new
      board. */
  lemma CreatedBoardIsActive(boards: seq<Board>, title: string, ids: NewBoardIds)
    requires NoBoard(boards, ids.board)
    ensures ActiveBoardOf(AddBoard(boards, title, ids), Some(ids.board)) == Some(StarterBoard(title, ids))
  {
    var r := AddBoard(boards, title, ids);
    assert r[|boards|].id == ids.board;
    assert BoardIndex(r, ids.board) == Some(|boards|);
  }

  /** The initial `activeBoard` is the id of a second default board, which
      no stored board carries, so `getActiveBoard` starts out empty. */
  lemma InitialActiveBoardMissing(ids: TemplateIds, activeId: string)
    requires activeId != ids.board
    ensures ActiveBoardOf([DefaultBoard(ids)], Some(activeId)) == None
  {
  }

  /** `deleteBoard` keeps the order of the remaining boards: deleting from
      two parts is deleting from each. */
  lemma RemoveBoardSplits(a: seq<Board>, b: seq<Board>, id: string)
    ensures RemoveBoard(a + b, id) == RemoveBoard(a, id) + RemoveBoard(b, id)
  {
    FilterConcat(a, b, (x: Board) => x.id != id);
  }

  /** `deleteList` keeps the remaining lists of the board in their order
      and with their multiplicity: removing from `a + b` removes from each
      part, a list with the id goes, and any other list stays. */
  lemma RemoveListSplits(board: Board, a: seq<List>, b: seq<List>, l: List, listId: string)
    ensures RemoveList([board.(lists := a + b)], board.id, listId)[0].lists ==
            RemoveList([board.(lists := a)], board.id, listId)[0].lists +
            RemoveList([board.(lists := b)], board.id, listId)[0].lists
    ensures RemoveList([board.(lists := [l])], board.id, listId)[0].lists == if l.id == listId then [] else [l]
  {
    FilterConcat(a, b, (x: List) => x.id != listId);
    assert [l][1..] == [];
  }

  /** Deleting the active first of two boards makes the second active;
      deleting the only board leaves no board and no active one. */
  lemma DeleteActiveExamples(b1: Board, b2: Board)
    requires b1.id != b2.id
    ensures RemoveBoard([b1, b2], b1.id) == [b2] && FirstBoardId(RemoveBoard([b1, b2], b1.id)) == Some(b2.id)
    ensures RemoveBoard([b1], b1.id) == [] && FirstBoardId(RemoveBoard([b1], b1.id)) == None
  {
    assert [b1, b2][1..] == [b2];
  }
}
