/** The records of the kanban data model: a Board holds ordered Lists, a List
    holds ordered Cards, a Card carries Labels. Optional TypeScript fields
    (`field?: T`) become `Option<T>`. */
module Types {

  /** A value that may be absent (`undefined` / `null` in the application). */
  datatype Option<+T> = None | Some(value: T)

  /** The instant a card was created (a `Date`), as milliseconds. */
  type Timestamp = int

  datatype Label = Label(id: string, name: string, color: string)

  datatype Card = Card(
    id: string,
    title: string,
    description: Option<string>,
    labels: seq<Label>,
    createdAt: Timestamp,
    backgroundColor: Option<string>)

  datatype List = List(
    id: string,
    title: string,
    cards: seq<Card>,
    backgroundColor: Option<string>)

  datatype Board = Board(
    id: string,
    title: string,
    lists: seq<List>,
    backgroundColor: Option<string>)

  /** `Partial<Card>`: any subset of the card's fields. `None` means the key
      is absent from the object. For the two optional fields the inner
      `Option` is the value given, which may itself be `undefined`. */
  datatype CardPatch = CardPatch(
    id: Option<string>,
    title: Option<string>,
    description: Option<Option<string>>,
    labels: Option<seq<Label>>,
    createdAt: Option<Timestamp>,
    backgroundColor: Option<Option<string>>)

  /** The patch with no key at all (`{}`). */
  const EmptyPatch := CardPatch(None, None, None, None, None, None)
}
