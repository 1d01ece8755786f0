# Kanban board store, modelled in Dafny

This project models the state engine of a single-user kanban editor. The
store holds an ordered sequence of boards and the id of the active board.
Each board holds ordered lists, each list holds ordered cards, and each card
carries labels. Every store operation replaces the old snapshot with a new
one. The map/filter operations rebuild it with `map`, `filter` and object
spreads. `moveList` and `moveCard` copy arrays and mutate the copies with
`splice` and slot assignment.

Files:

- `types.dfy` (module `Types`): the records `Label`, `Card`, `List` and
  `Board`. It also has `CardPatch`, which models `Partial<Card>`. Optional
  fields are `Option`s.
- `seqs.dfy` (module `Seqs`): the array primitives the store uses, as
  functions on sequences. They are `findIndex` (first match), `map` with a
  match test, `filter`, and `splice` used to remove one element or insert
  one. An insert past the end appends. The module also proves that a move
  can be undone.
- `board_ops.dfy` (module `BoardOps`): every map/filter operation of the
  store as a function from the old `boards` to the new one. It also holds
  `getActiveBoard`, the default-board template and the card-level helpers:
  merging a patch, adding a label, removing a label.
- `moves.dfy` (module `Moves`): `moveList` and `moveCard` as functions.
- `board_props.dfy` (module `BoardProps`): lemmas that relate several
  operations. They cover card conservation under `moveCard`, undoing a
  move, label idempotence, the background shortcut, and the active board.
- `board_store.dfy` (module `BoardStore`): the class `Store` with the two
  fields `boards` and `activeBoard`. It has one method per store operation.
  Each method's `ensures` gives the new state in terms of the functions
  above. `MoveList` and `MoveCard` keep the source's imperative steps on
  local copies: find the index, copy, splice out, splice in, write back.

In these places the code behaves in ways a reader might not expect, and
the model follows the code:

- `activeBoard` need not name a stored board. The initial store builds the
  default board twice, and the active id comes from the second copy, which
  is never stored. `setActiveBoard` does not check the id.
- `deleteBoard` always sets `activeBoard` to the first remaining board's id,
  or to none. This happens whether or not the deleted board was active, and
  even when no board had that id.
- `updateCard` merges `{...card, ...data}`. Any key in the patch
  overwrites the card's field, including `id` and `createdAt`.
- The `map`-based updates rewrite every entity whose id matches. The moves
  use `findIndex`, which takes only the first match.

## Model

| member | source | states |
|---|---|---|
| `Seqs.FindIndex` | src/store/boardStore.ts:296-297 | `findIndex` returns the first position whose element satisfies the test. It returns none exactly when no element does. |
| `Seqs.MapIf` | src/store/boardStore.ts:96-98 | `map` with a match test rewrites every matching element with `f` and keeps every other one in place. The length is kept, and nothing changes when nothing matches. |
| `Seqs.Filter` | src/store/boardStore.ts:110 | `filter` keeps exactly the elements that pass, never grows the sequence, and is the identity when all pass. |
| `Seqs.FilterConcat` | src/store/boardStore.ts:376 | Filtering distributes over concatenation, so the kept elements stay in their relative order. |
| `Seqs.RemoveAt` | src/store/boardStore.ts:306 | `splice(i, 1)` removes exactly the element at `i`. Earlier elements keep their places, later ones shift down, and the multiset loses just that element. |
| `Seqs.InsertAt` | src/store/boardStore.ts:311 | `splice(j, 0, x)` places `x` at `j`, or at the end when `j` is past the end. The elements around it keep their order, and the multiset gains just `x`. |
| `Seqs.Move` | src/store/boardStore.ts:187-188 | Remove-then-insert is a permutation of the same length. The moved element lands at the destination, clamped to the last position. |
| `Seqs.MoveUndone` | src/store/boardStore.ts:187-188 | Moving back from where the element landed to where it came from restores the sequence. |
| `BoardOps.BoardIndex` | src/store/boardStore.ts:180 | Gives the first board carrying the id, or none exactly when no board carries it. |
| `BoardOps.ListIndex` | src/store/boardStore.ts:296-297 | Gives the first list carrying the id, or none exactly when no list carries it. |
| `BoardOps.ActiveBoardOf` | src/store/boardStore.ts:59-62 | `getActiveBoard` returns a board exactly when there is an active id and some board carries it. That board carries the id and is the first such board. "No board" is an ordinary result. |
| `BoardOps.DefaultBoard` | src/store/boardStore.ts:6-49 | The default board has title "Meu primeiro quadro" and background `#0079bf`. Its lists are "To Do", "In Progress" and "Done", holding 2, 1 and 0 cards. |
| `BoardOps.StarterBoard` | src/store/boardStore.ts:65-86 | A new board has the given id and title and background `#0079bf`. It has exactly three lists, "To Do", "In Progress" and "Done" in that order, all empty and with no background. |
| `BoardOps.AddBoard` | src/store/boardStore.ts:89 | `createBoard` keeps every existing board in place and appends exactly one starter board at the end. |
| `BoardOps.RenameBoard` | src/store/boardStore.ts:94-99 | Every board carrying the id gets the title. Nothing else changes. An unknown id leaves `boards` unchanged. |
| `BoardOps.RecolorBoard` | src/store/boardStore.ts:101-106 | Every board carrying the id gets the background. Nothing else changes. An unknown id leaves `boards` unchanged. |
| `BoardOps.RemoveBoard` | src/store/boardStore.ts:110 | No remaining board carries the id. Every remaining board was there before. Every board with another id remains. An unknown id changes nothing. |
| `BoardOps.FirstBoardId` | src/store/boardStore.ts:111 | The new active board is the first remaining board's id, or none exactly when no board remains. |
| `BoardOps.EmptyList` | src/store/boardStore.ts:128-132 | A created list has the given id and title, no cards and no background. |
| `BoardOps.AddList` | src/store/boardStore.ts:119-136 | Each board `boardId` keeps its lists and gets one empty list appended. Other boards and every board's id, title and background are unchanged. An unknown board changes nothing. |
| `BoardOps.RenameList` | src/store/boardStore.ts:138-150 | Only the title of the lists `listId` on the boards `boardId` changes. Positions, ids, cards and backgrounds are kept. An unknown board or list changes nothing. |
| `BoardOps.RecolorList` | src/store/boardStore.ts:152-164 | Only the background of the addressed lists changes. Everything else is kept, and an unknown board or list changes nothing. |
| `BoardOps.RemoveList` | src/store/boardStore.ts:166-176 | On each board `boardId` no list `listId` remains, and every other list remains. Each board `boardId` gets exactly the `Filter` of its old lists, so the kept lists stay in order and with their multiplicity (`Seqs.FilterConcat`, `BoardProps.RemoveListSplits`). Other boards are untouched, and an unknown board or an unknown list changes nothing. |
| `BoardOps.NewCard` | src/store/boardStore.ts:210-216 | A created card has the given id, title and creation instant. Its description is `''`, it has no labels and no background. |
| `BoardOps.AddCard` | src/store/boardStore.ts:196-222 | The addressed lists get one new card at the end. Every other list and every header is unchanged, and an unknown board or list changes nothing. |
| `BoardOps.Patched` | src/store/boardStore.ts:238 | Each field present in the patch overwrites the card's field, `id` and `createdAt` included. Absent fields are kept. |
| `BoardOps.UpdateCard` | src/store/boardStore.ts:224-244 | Only cards `cardId` in the addressed lists change, and each becomes the patched card. The shape of every board and list is kept, and an unknown board or list changes nothing. |
| `BoardOps.RecolorCard` | src/store/boardStore.ts:246-266 | Only the background of the addressed cards changes. The shape is kept, and an unknown board or list changes nothing. |
| `BoardOps.RemoveCard` | src/store/boardStore.ts:268-285 | The addressed lists lose exactly the cards `cardId`, filtered in order. Every list keeps its place and header, and an unknown board or list changes nothing. |
| `BoardOps.WithLabel` | src/store/boardStore.ts:344-351 | A card that already has a label with that id is returned unchanged. Otherwise the label is appended to its labels. |
| `BoardOps.WithoutLabel` | src/store/boardStore.ts:374-377 | No label with the id remains, every label with another id remains, no label is added, and the card's other fields are kept. Order and multiplicity are stated by `BoardProps.WithoutLabelSplits`. |
| `BoardOps.AddLabelToCard` | src/store/boardStore.ts:329-357 | Only cards `cardId` in the addressed lists change, each by `WithLabel`. The shape is kept, and an unknown board or list changes nothing. |
| `BoardOps.RemoveLabelFromCard` | src/store/boardStore.ts:359-383 | Only cards `cardId` in the addressed lists change, each by `WithoutLabel`. The shape is kept, and an unknown board or list changes nothing. |
| `Moves.ListMoved` | src/store/boardStore.ts:178-194 | An unknown board changes nothing. Only the first board carrying the id changes, and only in its lists. Its lists become `Move` of the old lists: the list at `sourceIndex` is spliced out and spliced back in at the clamped destination, the others keep their relative order, and the result is a permutation of the same length. |
| `Moves.CardsMoved` | src/store/boardStore.ts:301-321 | Every list keeps its header, and lists other than source and destination are untouched. Within one list the result is the move. Across lists the source loses the card at `sourceIndex` and the destination gains it at `destinationIndex`. |
| `Moves.CardMoved` | src/store/boardStore.ts:287-327 | An unknown board, or an unknown source or destination list, changes nothing. Otherwise only the first board carrying the id changes. It keeps its header and its number of lists, and its lists become `CardsMoved` of the old lists at the first source and destination lists carrying the ids. That is where the card goes. |
| `BoardProps.CardsMovedKeepsCards` | src/store/boardStore.ts:301-321 | `moveCard` keeps the board's cards: the same multiset, so also the same total count. |
| `BoardProps.CardMovedKeepsCards` | src/store/boardStore.ts:287-327 | After `moveCard`, every board holds the same multiset of cards as before. No card is lost or duplicated anywhere. |
| `BoardProps.AllCardsReplace` | src/store/boardStore.ts:318-321 | Replacing one list in a board changes the board's cards by exactly the old and the new list's cards. |
| `BoardProps.SameListMoveUndone` | src/store/boardStore.ts:306-309 | A same-list move counts the destination in the shortened list, so moving back restores the lists. |
| `BoardProps.SameListMoveExamples` | src/store/boardStore.ts:301-309 | `[A,B,C,D]` moved from 0 to 2 gives `[B,C,A,D]`, and from 3 to 0 gives `[D,A,B,C]`. |
| `BoardProps.CrossListMoveExample` | src/store/boardStore.ts:306-321 | Source `[A,B,C]` and destination `[X,Y]`, moving from 1 to 1, give `[A,C]` and `[X,B,Y]`. |
| `BoardProps.CrossListMove` | src/store/boardStore.ts:306-321 | Across lists the source is the old source without the card at `sourceIndex`. The destination is the old destination with that card inserted at the clamped `destinationIndex`. |
| `BoardProps.ListMovedUndone` | src/store/boardStore.ts:183-193 | `moveList` followed by the move back restores `boards`, and the move back is a valid call. |
| `BoardProps.AddLabelIdempotent` | src/store/boardStore.ts:344-351 | Adding the same label twice is adding it once. |
| `BoardProps.AddLabelLeavesOne` | src/store/boardStore.ts:344-351 | On a card with at most one label of that id, adding the label once or twice leaves exactly one label with that id. |
| `BoardProps.RemoveAfterAdd` | src/store/boardStore.ts:344-376 | Removing a label id after adding that label gives the same card as only removing it. |
| `BoardProps.RemoveLabelIdempotent` | src/store/boardStore.ts:376 | Removing the same label id twice is removing it once. |
| `BoardProps.WithoutLabelSplits` | src/store/boardStore.ts:376 | `removeLabelFromCard` keeps the other labels in order and with their multiplicity: removing from `a + b` removes from each part, a single label goes exactly when it carries the id. |
| `BoardProps.BackgroundPatch` | src/store/boardStore.ts:260 | The patch `{ backgroundColor: color }` changes a card's background and nothing else. |
| `BoardProps.EmptyPatchKeepsCard` | src/types/index.ts:54 | An empty `Partial<Card>` leaves the card unchanged. |
| `BoardProps.PatchIdempotent` | src/store/boardStore.ts:238 | Merging the same patch twice is merging it once. |
| `BoardProps.RecolorCardIsUpdateCard` | src/store/boardStore.ts:246-266 | `updateCardBackground` equals `updateCard` with the patch `{ backgroundColor: color }`. |
| `BoardProps.CreatedBoardIsActive` | src/store/boardStore.ts:64-91 | After `createBoard` with an id no board carries, `getActiveBoard` returns the new starter board. |
| `BoardProps.InitialActiveBoardMissing` | src/store/boardStore.ts:54-55 | The initial active id belongs to a second default board, which is not stored, so `getActiveBoard` initially gives none. |
| `BoardProps.RemoveListSplits` | src/store/boardStore.ts:166-176 | `deleteList` keeps the board's remaining lists in order and with their multiplicity: removing from `a + b` removes from each part, a one-list board loses its list exactly when it carries the id. |
| `BoardProps.RemoveBoardSplits` | src/store/boardStore.ts:110 | `deleteBoard` keeps the remaining boards in their order: deleting from `a + b` deletes from each part. |
| `BoardProps.DeleteActiveExamples` | src/store/boardStore.ts:108-117 | Deleting B1 from `[B1, B2]` leaves `[B2]` with B2 active. Deleting B1 from `[B1]` leaves no boards and no active board. |
| `BoardStore.Store.constructor` | src/store/boardStore.ts:54-55 | Starts with one default board, and the active id is the id of a second default board. |
| `BoardStore.Store.SetActiveBoard` | src/store/boardStore.ts:57 | Sets the active id without any existence check. The boards are unchanged. |
| `BoardStore.Store.GetActiveBoard` | src/store/boardStore.ts:59-62 | Returns a stored board carrying the active id exactly when one exists, and it is the first such board (`ActiveBoardOf`). |
| `BoardStore.Store.CreateBoard` | src/store/boardStore.ts:64-92 | The starter board is appended, and its id becomes active. |
| `BoardStore.Store.UpdateBoardTitle` | src/store/boardStore.ts:94-99 | The boards become `RenameBoard` of the old boards. The active id is kept. |
| `BoardStore.Store.UpdateBoardBackground` | src/store/boardStore.ts:101-106 | The boards become `RecolorBoard` of the old boards. The active id is kept. |
| `BoardStore.Store.DeleteBoard` | src/store/boardStore.ts:108-117 | The boards become `RemoveBoard` of the old boards, and the active id becomes the first remaining board's id or none. |
| `BoardStore.Store.CreateList` | src/store/boardStore.ts:119-136 | The boards become `AddList` of the old boards. The active id is kept. |
| `BoardStore.Store.UpdateListTitle` | src/store/boardStore.ts:138-150 | The boards become `RenameList` of the old boards. The active id is kept. |
| `BoardStore.Store.UpdateListBackground` | src/store/boardStore.ts:152-164 | The boards become `RecolorList` of the old boards. The active id is kept. |
| `BoardStore.Store.DeleteList` | src/store/boardStore.ts:166-176 | The boards become `RemoveList` of the old boards. The active id is kept. |
| `BoardStore.Store.MoveList` | src/store/boardStore.ts:178-194 | The imperative splice on copies yields exactly `ListMoved` of the old boards. The active id is kept. |
| `BoardStore.Store.CreateCard` | src/store/boardStore.ts:196-222 | The boards become `AddCard` of the old boards. The active id is kept. |
| `BoardStore.Store.UpdateCard` | src/store/boardStore.ts:224-244 | The boards become `UpdateCard` of the old boards. The active id is kept. |
| `BoardStore.Store.UpdateCardBackground` | src/store/boardStore.ts:246-266 | The boards become `RecolorCard` of the old boards. The active id is kept. |
| `BoardStore.Store.DeleteCard` | src/store/boardStore.ts:268-285 | The boards become `RemoveCard` of the old boards. The active id is kept. |
| `BoardStore.Store.MoveCard` | src/store/boardStore.ts:287-327 | The imperative splice on copies yields exactly `CardMoved` of the old boards. Same-list is decided by comparing the list ids, as the source does. The active id is kept. |
| `BoardStore.Store.AddLabelToCard` | src/store/boardStore.ts:329-357 | The boards become `AddLabelToCard` of the old boards. The active id is kept. |
| `BoardStore.Store.RemoveLabelFromCard` | src/store/boardStore.ts:359-383 | The boards become `RemoveLabelFromCard` of the old boards. The active id is kept. |

## Left out

- Persistence is not modelled. The zustand `persist` middleware stores the
  state under the key `trello-clone-storage`. No serialization round trip
  is claimed, because nothing revives `createdAt` as a `Date`.
- The zustand `create`/`set`/`get` plumbing becomes the `Store` class and
  field assignment.
- `nanoid()` and `new Date()` become parameters: fresh ids and the creation
  instant. `createList` and `createCard` call `nanoid()` once per matching
  board or list, so duplicate ids would get distinct new ids. `createCard`
  also calls `new Date()` once per matching list, so such cards could get
  different instants. The model gives every match the one id and the one
  `now` passed in.
- BoardStore.Store.MoveList: requires `sourceIndex` to name a list of the board when the board exists. With a larger index, `splice` removes nothing and inserts `undefined`, which typed lists cannot hold.
- BoardStore.Store.MoveCard: requires `sourceIndex` to name a card of the source list when the board and both lists exist, for the same reason.
- Indices are natural numbers. Negative and fractional positions, which
  `splice` would reinterpret, are not modelled.
- `CardPatch` models `Partial<Card>` with keys present or absent. An
  explicit `undefined` can be given only for the two optional fields.
  `undefined` for `title`, `labels`, `id` or `createdAt` is not modelled.
- The copies that `moveList` and `moveCard` mutate are modelled as local
  sequence values, not as arrays. Aliasing between the copies and the old
  snapshot cannot be observed in the source, so it is not modelled.
- Colors are opaque strings, and `createdAt` is a number of milliseconds.
- The React components are not part of this model: rendering, the drag
  handlers that turn pointer events into indices, confirmation dialogs,
  color pickers and title trimming.
