/** Every operation of the board store as a function from the old `boards`
    sequence to the new one. The store never changes a board, list or card in
    place: each operation rebuilds the sequence with `map`, `filter`, spreads
    and, for the two moves, `splice` on copies. */
module BoardOps {
  import opened Types
  import opened Seqs

  /** The background every new board gets. */
  const DefaultBackground := "#0079bf"

  // ---------------------------------------------------------------------
  // Lookup
  // ---------------------------------------------------------------------

  /** `boards.findIndex(board => board.id === id)`. */
  function BoardIndex(boards: seq<Board>, id: string): (r: Option<nat>)
    ensures r.Some? ==> r.value < |boards| && boards[r.value].id == id
    ensures r.Some? ==> forall k :: 0 <= k < r.value ==> boards[k].id != id
    ensures r.None? <==> NoBoard(boards, id)
  {
    FindIndex(boards, (b: Board) => b.id == id)
  }

  /** `lists.findIndex(list => list.id === id)`. */
  function ListIndex(lists: seq<List>, id: string): (r: Option<nat>)
    ensures r.Some? ==> r.value < |lists| && lists[r.value].id == id
    ensures r.Some? ==> forall k :: 0 <= k < r.value ==> lists[k].id != id
    ensures r.None? <==> forall k :: 0 <= k < |lists| ==> lists[k].id != id
  {
    FindIndex(lists, (l: List) => l.id == id)
  }

  /** No board carries the id. */
  predicate NoBoard(boards: seq<Board>, id: string)
  {
    forall k :: 0 <= k < |boards| ==> boards[k].id != id
  }

  /** No board `boardId` holds a list `listId`, so a card operation
      addressed to that pair finds nothing. */
  predicate NoList(boards: seq<Board>, boardId: string, listId: string)
  {
    forall i, j :: 0 <= i < |boards| && boards[i].id == boardId && 0 <= j < |boards[i].lists| ==>
      boards[i].lists[j].id != listId
  }

  /** Two boards agree on everything except, perhaps, their lists. */
  predicate SameBoardHeader(a: Board, b: Board)
  {
    a.id == b.id && a.title == b.title && a.backgroundColor == b.backgroundColor
  }

  /** Two lists agree on everything except, perhaps, their cards. */
  predicate SameListHeader(a: List, b: List)
  {
    a.id == b.id && a.title == b.title && a.backgroundColor == b.backgroundColor
  }

  /** `after` has the boards of `before` in the same places with the same
      ids, titles and backgrounds, and the same lists in the same places up
      to their cards, of which there are as many as before. */
  predicate SameShape(before: seq<Board>, after: seq<Board>)
  {
    |after| == |before| &&
    (forall i :: 0 <= i < |before| ==>
      SameBoardHeader(after[i], before[i]) && |after[i].lists| == |before[i].lists|) &&
    (forall i, j :: 0 <= i < |before| && 0 <= j < |before[i].lists| ==>
      SameListHeader(after[i].lists[j], before[i].lists[j]) &&
      |after[i].lists[j].cards| == |before[i].lists[j].cards|)
  }

  /** `getActiveBoard`: `boards.find(board => board.id === activeBoard)`;
      no active id, or an id no board carries, gives none. */
  function ActiveBoardOf(boards: seq<Board>, active: Option<string>): (r: Option<Board>)
    ensures r.Some? <==> active.Some? && !NoBoard(boards, active.value)
    ensures r.Some? ==> r.value.id == active.value
    ensures r.Some? ==> exists k :: 0 <= k < |boards| && boards[k] == r.value &&
                          forall j :: 0 <= j < k ==> boards[j].id != active.value
  {
    match active
    case None => None
    case Some(id) =>
      match BoardIndex(boards, id)
      case None => None
      case Some(k) => Some(boards[k])
  }

  // ---------------------------------------------------------------------
  // Boards
  // ---------------------------------------------------------------------

  /** The ids and creation instants `getDefaultBoard` draws from `nanoid()`
      and `new Date()`. */
  datatype TemplateIds = TemplateIds(
    board: string,
    todo: string, inProgress: string, done: string,
    learnCard: string, structureCard: string, uiCard: string,
    learningLabel: string, uiLabel: string,
    learnCreated: Timestamp, structureCreated: Timestamp, uiCreated: Timestamp)

  /** `getDefaultBoard()`: the starter board with its three seeded cards. */
  function DefaultBoard(ids: TemplateIds): (b: Board)
    ensures b.id == ids.board && b.title == "Meu primeiro quadro"
    ensures b.backgroundColor == Some(DefaultBackground)
    ensures |b.lists| == 3
    ensures b.lists[0].title == "To Do" && b.lists[1].title == "In Progress" && b.lists[2].title == "Done"
    ensures |b.lists[0].cards| == 2 && |b.lists[1].cards| == 1 && b.lists[2].cards == []
  {
    Board(ids.board, "Meu primeiro quadro",
      [ List(ids.todo, "To Do",
          [ Card(ids.learnCard, "Learn drag and drop",
              Some("Study how to implement drag and drop in React"),
              [Label(ids.learningLabel, "Learning", "#3B82F6")], ids.learnCreated, None),
            Card(ids.structureCard, "Create project structure", None, [], ids.structureCreated, None) ],
          None),
        List(ids.inProgress, "In Progress",
          [ Card(ids.uiCard, "Build UI components",
              Some("Create reusable components for the app"),
              [Label(ids.uiLabel, "UI", "#0EA5E9")], ids.uiCreated, None) ],
          None),
        List(ids.done, "Done", [], None) ],
      Some(DefaultBackground))
  }

  /** The ids `createBoard` draws from `nanoid()`. */
  datatype NewBoardIds = NewBoardIds(board: string, todo: string, inProgress: string, done: string)

  /** The board `createBoard(title)` builds. */
  function StarterBoard(title: string, ids: NewBoardIds): (b: Board)
    ensures b.id == ids.board && b.title == title && b.backgroundColor == Some(DefaultBackground)
    ensures |b.lists| == 3
    ensures b.lists[0].title == "To Do" && b.lists[1].title == "In Progress" && b.lists[2].title == "Done"
    ensures b.lists[0].id == ids.todo && b.lists[1].id == ids.inProgress && b.lists[2].id == ids.done
    ensures forall k :: 0 <= k < |b.lists| ==> b.lists[k].cards == [] && b.lists[k].backgroundColor == None
  {
    Board(ids.board, title,
      [List(ids.todo, "To Do", [], None), List(ids.inProgress, "In Progress", [], None), List(ids.done, "Done", [], None)],
      Some(DefaultBackground))
  }

  /** `createBoard`: `[...boards, newBoard]`. */
  function AddBoard(boards: seq<Board>, title: string, ids: NewBoardIds): (r: seq<Board>)
    ensures |r| == |boards| + 1
    ensures r[..|boards|] == boards
    ensures r[|boards|] == StarterBoard(title, ids)
  {
    boards + [StarterBoard(title, ids)]
  }

  /** `updateBoardTitle`: every board carrying the id gets the title. */
  function RenameBoard(boards: seq<Board>, id: string, title: string): (r: seq<Board>)
    ensures |r| == |boards|
    ensures forall i :: 0 <= i < |r| ==>
      r[i].id == boards[i].id && r[i].lists == boards[i].lists && r[i].backgroundColor == boards[i].backgroundColor
    ensures forall i :: 0 <= i < |r| ==> r[i].title == if boards[i].id == id then title else boards[i].title
    ensures NoBoard(boards, id) ==> r == boards
  {
    MapIf(boards, (b: Board) => b.id == id, (b: Board) => b.(title := title))
  }

  /** `updateBoardBackground`: every board carrying the id gets the color. */
  function RecolorBoard(boards: seq<Board>, id: string, color: string): (r: seq<Board>)
    ensures |r| == |boards|
    ensures forall i :: 0 <= i < |r| ==>
      r[i].id == boards[i].id && r[i].title == boards[i].title && r[i].lists == boards[i].lists
    ensures forall i :: 0 <= i < |r| ==>
      r[i].backgroundColor == if boards[i].id == id then Some(color) else boards[i].backgroundColor
    ensures NoBoard(boards, id) ==> r == boards
  {
    MapIf(boards, (b: Board) => b.id == id, (b: Board) => b.(backgroundColor := Some(color)))
  }

  /** `deleteBoard`: `boards.filter(board => board.id !== id)`. */
  function RemoveBoard(boards: seq<Board>, id: string): (r: seq<Board>)
    ensures NoBoard(r, id)
    ensures forall k :: 0 <= k < |r| ==> r[k] in boards
    ensures forall k :: 0 <= k < |boards| && boards[k].id != id ==> boards[k] in r
    ensures NoBoard(boards, id) ==> r == boards
  {
    Filter(boards, (b: Board) => b.id != id)
  }

  /** The `activeBoard` `deleteBoard` leaves: the first remaining board. */
  function FirstBoardId(boards: seq<Board>): (r: Option<string>)
    ensures r.None? <==> boards == []
    ensures r.Some? ==> r.value == boards[0].id
  {
    if |boards| > 0 then Some(boards[0].id) else None
  }

  // ---------------------------------------------------------------------
  // Lists
  // ---------------------------------------------------------------------

  /** The common shape of the list operations: the `lists` of every board
      carrying `boardId` are rebuilt by `g`; nothing else changes. */
  function EditLists(boards: seq<Board>, boardId: string, g: seq<List> -> seq<List>): (r: seq<Board>)
    ensures |r| == |boards|
    ensures forall i :: 0 <= i < |r| ==> SameBoardHeader(r[i], boards[i])
    ensures forall i :: 0 <= i < |r| && boards[i].id == boardId ==> r[i].lists == g(boards[i].lists)
    ensures forall i :: 0 <= i < |r| && boards[i].id != boardId ==> r[i] == boards[i]
    ensures NoBoard(boards, boardId) ==> r == boards
  {
    MapIf(boards, (b: Board) => b.id == boardId, (b: Board) => b.(lists := g(b.lists)))
  }

  /** A list as `createList` builds it. */
  function EmptyList(id: string, title: string): (l: List)
    ensures l.id == id && l.title == title && l.cards == [] && l.backgroundColor == None
  {
    List(id, title, [], None)
  }

  /** `createList`: an empty list is appended to each board `boardId`. */
  function AddList(boards: seq<Board>, boardId: string, listId: string, title: string): (r: seq<Board>)
    ensures |r| == |boards|
    ensures forall i :: 0 <= i < |r| ==> SameBoardHeader(r[i], boards[i])
    ensures forall i :: 0 <= i < |r| && boards[i].id == boardId ==>
      |r[i].lists| == |boards[i].lists| + 1 &&
      r[i].lists[..|boards[i].lists|] == boards[i].lists &&
      r[i].lists[|boards[i].lists|] == EmptyList(listId, title)
    ensures forall i :: 0 <= i < |r| && boards[i].id != boardId ==> r[i] == boards[i]
    ensures NoBoard(boards, boardId) ==> r == boards
  {
    EditLists(boards, boardId, (ls: seq<List>) => ls + [EmptyList(listId, title)])
  }

  /** The common shape of `updateListTitle` and `updateListBackground`:
      `lists.map(list => list.id === listId ? f(list) : list)`. */
  function EditList(boards: seq<Board>, boardId: string, listId: string, f: List -> List): (r: seq<Board>)
    ensures |r| == |boards|
    ensures forall i :: 0 <= i < |r| ==> SameBoardHeader(r[i], boards[i]) && |r[i].lists| == |boards[i].lists|
    ensures forall i, j :: 0 <= i < |r| && 0 <= j < |r[i].lists| ==>
      r[i].lists[j] == if boards[i].id == boardId && boards[i].lists[j].id == listId
                       then f(boards[i].lists[j]) else boards[i].lists[j]
    ensures forall i :: 0 <= i < |r| && boards[i].id != boardId ==> r[i] == boards[i]
    ensures NoList(boards, boardId, listId) ==> r == boards
  {
    var g := (ls: seq<List>) => MapIf(ls, (l: List) => l.id == listId, f);
    var r := EditLists(boards, boardId, g);
    if NoList(boards, boardId, listId) then
      assert forall i :: 0 <= i < |r| ==> r[i] == boards[i] by {
        forall i | 0 <= i < |r| ensures r[i] == boards[i] {
          if boards[i].id == boardId {
            assert r[i].lists == boards[i].lists;
          }
        }
      }
      r
    else r
  }

  /** `updateListTitle`: each addressed list gets the title. */
  function RenameList(boards: seq<Board>, boardId: string, listId: string, title: string): (r: seq<Board>)
    ensures |r| == |boards|
    ensures forall i :: 0 <= i < |r| ==> SameBoardHeader(r[i], boards[i]) && |r[i].lists| == |boards[i].lists|
    ensures forall i, j :: 0 <= i < |r| && 0 <= j < |r[i].lists| ==>
      var (was, now) := (boards[i].lists[j], r[i].lists[j]);
      now.id == was.id && now.cards == was.cards && now.backgroundColor == was.backgroundColor &&
      now.title == if boards[i].id == boardId && was.id == listId then title else was.title
    ensures NoList(boards, boardId, listId) ==> r == boards
  {
    EditList(boards, boardId, listId, (l: List) => l.(title := title))
  }

  /** `updateListBackground`: each addressed list gets the color. */
  function RecolorList(boards: seq<Board>, boardId: string, listId: string, color: string): (r: seq<Board>)
    ensures |r| == |boards|
    ensures forall i :: 0 <= i < |r| ==> SameBoardHeader(r[i], boards[i]) && |r[i].lists| == |boards[i].lists|
    ensures forall i, j :: 0 <= i < |r| && 0 <= j < |r[i].lists| ==>
      var (was, now) := (boards[i].lists[j], r[i].lists[j]);
      now.id == was.id && now.title == was.title && now.cards == was.cards &&
      now.backgroundColor == if boards[i].id == boardId && was.id == listId then Some(color) else was.backgroundColor
    ensures NoList(boards, boardId, listId) ==> r == boards
  {
    EditList(boards, boardId, listId, (l: List) => l.(backgroundColor := Some(color)))
  }

  /** `deleteList`: `lists.filter(list => list.id !== listId)` on each board
      `boardId`; the list's cards go with it. */
  function RemoveList(boards: seq<Board>, boardId: string, listId: string): (r: seq<Board>)
    ensures |r| == |boards|
    ensures forall i :: 0 <= i < |r| ==> SameBoardHeader(r[i], boards[i])
    ensures forall i, k :: 0 <= i < |r| && boards[i].id == boardId && 0 <= k < |r[i].lists| ==>
      r[i].lists[k].id != listId && r[i].lists[k] in boards[i].lists
    ensures forall i, k ::
      (0 <= i < |r| && boards[i].id == boardId && 0 <= k < |boards[i].lists| && boards[i].lists[k].id != listId) ==>
      boards[i].lists[k] in r[i].lists
    ensures forall i :: 0 <= i < |r| && boards[i].id != boardId ==> r[i] == boards[i]
    ensures NoBoard(boards, boardId) ==> r == boards
    ensures NoList(boards, boardId, listId) ==> r == boards
    ensures forall i :: 0 <= i < |r| && boards[i].id == boardId ==>
      r[i].lists == Filter(boards[i].lists, (l: List) => l.id != listId)
  {
    EditLists(boards, boardId, (ls: seq<List>) => Filter(ls, (l: List) => l.id != listId))
  }

  // ---------------------------------------------------------------------
  // Cards
  // ---------------------------------------------------------------------

  /** The common shape of the card operations: the `cards` of every list
      `listId` on every board `boardId` are rebuilt by `f`; every board and
      list keeps its place, id, title and background. */
  function EditCards(boards: seq<Board>, boardId: string, listId: string, f: seq<Card> -> seq<Card>): (r: seq<Board>)
    ensures |r| == |boards|
    ensures forall i :: 0 <= i < |r| ==> SameBoardHeader(r[i], boards[i]) && |r[i].lists| == |boards[i].lists|
    ensures forall i, j :: 0 <= i < |r| && 0 <= j < |r[i].lists| ==>
      SameListHeader(r[i].lists[j], boards[i].lists[j]) &&
      r[i].lists[j].cards == if boards[i].id == boardId && boards[i].lists[j].id == listId
                             then f(boards[i].lists[j].cards) else boards[i].lists[j].cards
    ensures forall i :: 0 <= i < |r| && boards[i].id != boardId ==> r[i] == boards[i]
    ensures NoList(boards, boardId, listId) ==> r == boards
  {
    EditList(boards, boardId, listId, (l: List) => l.(cards := f(l.cards)))
  }

  /** A card as `createCard` builds it. */
  function NewCard(id: string, title: string, now: Timestamp): (c: Card)
    ensures c.id == id && c.title == title && c.createdAt == now
    ensures c.description == Some("") && c.labels == [] && c.backgroundColor == None
  {
    Card(id, title, Some(""), [], now, None)
  }

  /** `createCard`: a new card is appended to each addressed list. */
  function AddCard(boards: seq<Board>, boardId: string, listId: string, cardId: string, title: string, now: Timestamp): (r: seq<Board>)
    ensures |r| == |boards|
    ensures forall i :: 0 <= i < |r| ==> SameBoardHeader(r[i], boards[i]) && |r[i].lists| == |boards[i].lists|
    ensures forall i, j :: 0 <= i < |r| && 0 <= j < |r[i].lists| ==>
      SameListHeader(r[i].lists[j], boards[i].lists[j]) &&
      r[i].lists[j].cards == if boards[i].id == boardId && boards[i].lists[j].id == listId
                             then boards[i].lists[j].cards + [NewCard(cardId, title, now)]
                             else boards[i].lists[j].cards
    ensures NoList(boards, boardId, listId) ==> r == boards
  {
    EditCards(boards, boardId, listId, (cs: seq<Card>) => cs + [NewCard(cardId, title, now)])
  }

  /** The common shape of the operations on one card:
      `cards.map(card => card.id === cardId ? f(card) : card)`. */
  function EditCard(boards: seq<Board>, boardId: string, listId: string, cardId: string, f: Card -> Card): (r: seq<Board>)
    ensures SameShape(boards, r)
    ensures forall i, j, k :: 0 <= i < |boards| && 0 <= j < |boards[i].lists| && 0 <= k < |boards[i].lists[j].cards| ==>
      r[i].lists[j].cards[k] ==
        if boards[i].id == boardId && boards[i].lists[j].id == listId && boards[i].lists[j].cards[k].id == cardId
        then f(boards[i].lists[j].cards[k]) else boards[i].lists[j].cards[k]
    ensures NoList(boards, boardId, listId) ==> r == boards
  {
    EditCards(boards, boardId, listId, (cs: seq<Card>) => MapIf(cs, (c: Card) => c.id == cardId, f))
  }

  /** `{ ...card, ...data }`: every key present in `data` overwrites the
      card's field, `id` and `createdAt` included. */
  function Patched(c: Card, data: CardPatch): (r: Card)
    ensures r.id == (if data.id.Some? then data.id.value else c.id)
    ensures r.title == (if data.title.Some? then data.title.value else c.title)
    ensures r.description == (if data.description.Some? then data.description.value else c.description)
    ensures r.labels == (if data.labels.Some? then data.labels.value else c.labels)
    ensures r.createdAt == (if data.createdAt.Some? then data.createdAt.value else c.createdAt)
    ensures r.backgroundColor == (if data.backgroundColor.Some? then data.backgroundColor.value else c.backgroundColor)
  {
    Card(
      match data.id case Some(v) => v case None => c.id,
      match data.title case Some(v) => v case None => c.title,
      match data.description case Some(v) => v case None => c.description,
      match data.labels case Some(v) => v case None => c.labels,
      match data.createdAt case Some(v) => v case None => c.createdAt,
      match data.backgroundColor case Some(v) => v case None => c.backgroundColor)
  }

  /** `updateCard`: the patch is merged into each addressed card. */
  function UpdateCard(boards: seq<Board>, boardId: string, listId: string, cardId: string, data: CardPatch): (r: seq<Board>)
    ensures SameShape(boards, r)
    ensures forall i, j, k :: 0 <= i < |boards| && 0 <= j < |boards[i].lists| && 0 <= k < |boards[i].lists[j].cards| ==>
      r[i].lists[j].cards[k] ==
        if boards[i].id == boardId && boards[i].lists[j].id == listId && boards[i].lists[j].cards[k].id == cardId
        then Patched(boards[i].lists[j].cards[k], data) else boards[i].lists[j].cards[k]
    ensures NoList(boards, boardId, listId) ==> r == boards
  {
    EditCard(boards, boardId, listId, cardId, (c: Card) => Patched(c, data))
  }

  /** `updateCardBackground`: each addressed card gets the color. */
  function RecolorCard(boards: seq<Board>, boardId: string, listId: string, cardId: string, color: string): (r: seq<Board>)
    ensures SameShape(boards, r)
    ensures forall i, j, k :: 0 <= i < |boards| && 0 <= j < |boards[i].lists| && 0 <= k < |boards[i].lists[j].cards| ==>
      r[i].lists[j].cards[k] ==
        if boards[i].id == boardId && boards[i].lists[j].id == listId && boards[i].lists[j].cards[k].id == cardId
        then boards[i].lists[j].cards[k].(backgroundColor := Some(color)) else boards[i].lists[j].cards[k]
    ensures NoList(boards, boardId, listId) ==> r == boards
  {
    EditCard(boards, boardId, listId, cardId, (c: Card) => c.(backgroundColor := Some(color)))
  }

  /** `deleteCard`: `cards.filter(card => card.id !== cardId)` on each
      addressed list. */
  function RemoveCard(boards: seq<Board>, boardId: string, listId: string, cardId: string): (r: seq<Board>)
    ensures |r| == |boards|
    ensures forall i :: 0 <= i < |r| ==> SameBoardHeader(r[i], boards[i]) && |r[i].lists| == |boards[i].lists|
    ensures forall i, j :: 0 <= i < |r| && 0 <= j < |r[i].lists| ==>
      SameListHeader(r[i].lists[j], boards[i].lists[j]) &&
      r[i].lists[j].cards == if boards[i].id == boardId && boards[i].lists[j].id == listId
                             then Filter(boards[i].lists[j].cards, (c: Card) => c.id != cardId)
                             else boards[i].lists[j].cards
    ensures NoList(boards, boardId, listId) ==> r == boards
  {
    EditCards(boards, boardId, listId, (cs: seq<Card>) => Filter(cs, (c: Card) => c.id != cardId))
  }

  /** A label with the id is on the card. */
  predicate HasLabel(c: Card, labelId: string)
  {
    exists k :: 0 <= k < |c.labels| && c.labels[k].id == labelId
  }

  /** The card as `addLabelToCard` leaves it: unchanged when a label with the
      same id is already there, otherwise with the label appended. */
  function WithLabel(c: Card, newLabel: Label): (r: Card)
    ensures HasLabel(c, newLabel.id) ==> r == c
    ensures !HasLabel(c, newLabel.id) ==> r == c.(labels := c.labels + [newLabel])
  {
    if HasLabel(c, newLabel.id) then c else c.(labels := c.labels + [newLabel])
  }

  /** The card as `removeLabelFromCard` leaves it: every label with the id
      is dropped. */
  function WithoutLabel(c: Card, labelId: string): (r: Card)
    ensures r == c.(labels := r.labels)
    ensures !HasLabel(r, labelId)
    ensures forall k :: 0 <= k < |c.labels| && c.labels[k].id != labelId ==> c.labels[k] in r.labels
    ensures forall k :: 0 <= k < |r.labels| ==> r.labels[k] in c.labels
  {
    c.(labels := Filter(c.labels, (l: Label) => l.id != labelId))
  }

  /** `addLabelToCard` on each addressed card. */
  function AddLabelToCard(boards: seq<Board>, boardId: string, listId: string, cardId: string, newLabel: Label): (r: seq<Board>)
    ensures SameShape(boards, r)
    ensures forall i, j, k :: 0 <= i < |boards| && 0 <= j < |boards[i].lists| && 0 <= k < |boards[i].lists[j].cards| ==>
      r[i].lists[j].cards[k] ==
        if boards[i].id == boardId && boards[i].lists[j].id == listId && boards[i].lists[j].cards[k].id == cardId
        then WithLabel(boards[i].lists[j].cards[k], newLabel) else boards[i].lists[j].cards[k]
    ensures NoList(boards, boardId, listId) ==> r == boards
  {
    EditCard(boards, boardId, listId, cardId, (c: Card) => WithLabel(c, newLabel))
  }

  /** `removeLabelFromCard` on each addressed card. */
  function RemoveLabelFromCard(boards: seq<Board>, boardId: string, listId: string, cardId: string, labelId: string): (r: seq<Board>)
    ensures SameShape(boards, r)
    ensures forall i, j, k :: 0 <= i < |boards| && 0 <= j < |boards[i].lists| && 0 <= k < |boards[i].lists[j].cards| ==>
      r[i].lists[j].cards[k] ==
        if boards[i].id == boardId && boards[i].lists[j].id == listId && boards[i].lists[j].cards[k].id == cardId
        then WithoutLabel(boards[i].lists[j].cards[k], labelId) else boards[i].lists[j].cards[k]
    ensures NoList(boards, boardId, listId) ==> r == boards
  {
    EditCard(boards, boardId, listId, cardId, (c: Card) => WithoutLabel(c, labelId))
  }
}
