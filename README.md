# To-do list model

A Dafny model of a small Ruby to-do list: a `Todo` item with a fixed title
and a mutable done flag, and a `TodoList`, a titled, insertion-ordered,
mutable sequence of references to items. The repository's implementation
file `todolist.rb` is not part of this model; its observable behaviour is
taken from the assertions of `todolist_test.rb`; what those assertions leave
open is listed under Left out.

Layout:

- `wrappers.dfy` — `Option` (Ruby's `nil`), `Result` and `Outcome` (a raised error).
- `text.dfy` (module `Text`) — the values an item and a list show (`Entry`,
  `Listing`), the line format (`[X] title`, `[ ] title`, `---- title ----`),
  newline joining, and the inverses of all of these: a line splitter and
  parsers, with the round trips proved.
- `todo.dfy` (module `Todos`) — class `Todo`: `done!`, `undone!`, `done?`
  (the `done` field) and `to_s`.
- `todolist.dfy` (module `TodoLists`) — class `TodoList` holding
  `todos: seq<Todo>`, plus the specification functions it is proved against
  (index normalisation, order-preserving removal, filtering, search) and
  lemmas about them.
- `scenarios.dfy` (module `Scenarios`) — each test case restated against the
  model: a method builds the shared fixture, performs the test's calls and
  promises in its `ensures` what the test asserts. The methods answer the
  fixture's items (`t1`, `t2`, `t3`, called `todo1`, `todo2`, `todo3` below)
  so that their contracts compare items by identity, as the tests do.

Items are objects, so a list and its caller share them: marking an item done
through a reference held outside the list is seen by `done?`, `to_s` and the
filters of the list. `to_a` answers a copy of the sequence: it is the
value of the field `todos`, and a Dafny sequence is a value. `size` is
`|todos|` and `title` is the constant field `title`.

Indices follow Ruby: `i` is valid exactly when `-size <= i < size`, and a
negative `i` names element `size + i`; anything else is an `IndexError`.
Adding anything but an item is a `TypeError` and leaves the list unchanged.

## Model

| member | source | states |
|---|---|---|
| `Text.ItemLine` | todolist_test.rb:119-149 | an item line is `[X] ` or `[ ] ` followed by the title, and parses back to the same title and flag |
| `Text.Header` | todolist_test.rb:119-149 | the header line is `---- title ----` and parses back to the title |
| `Text.Split` | todolist_test.rb:119-149 | cutting text at newlines gives newline-free lines that join back to the text |
| `Text.SplitJoin` | todolist_test.rb:119-149 | splitting undoes newline-joining when no line holds a newline |
| `Text.ParseItemLinesOf` | todolist_test.rb:119-149 | the item lines of a list parse back to its items in order |
| `Text.HeaderParsed` | todolist_test.rb:119-149 | a line that parses as a header is exactly the header of the title it gives |
| `Text.ItemLineParsed` | todolist_test.rb:119-149 | a line that parses as an item is exactly the line of the item it gives |
| `Text.ItemLinesParsed` | todolist_test.rb:119-149 | lines that parse as items are exactly the item lines of those items, in order |
| `Text.ParseUnique` | todolist_test.rb:119-149 | only the rendering of a list reads back as that list, so with `RenderParses` the text is fixed character for character |
| `Text.RenderParses` | todolist_test.rb:119-149 | a rendered list (header, then one line per item, newline-joined) reads back as the same title and items in order |
| `Todos.Todo.constructor` | todolist_test.rb:14-16 | a new item has the given title and is not done |
| `Todos.Todo.MarkDone` | todolist_test.rb:56 | `done!` leaves the item done |
| `Todos.Todo.MarkUndone` | todolist_test.rb:97-101 | `undone!` leaves the item not done |
| `Todos.Todo.ToString` | todolist_test.rb:119-149 | an item renders as its done mark and then its title |
| `TodoLists.Normalize` | todolist_test.rb:75-80 | an index resolves exactly when `-n <= i < n`, to the unique position below `n` congruent to `i` modulo `n` |
| `TodoLists.Removed` | todolist_test.rb:109-117 | removing position `k` drops exactly that element, one shorter, others in their order |
| `TodoLists.Entries` | todolist_test.rb:119-149 | the observable states of the items, one per item, in list order |
| `TodoLists.EveryDone` | todolist_test.rb:54-58 | true exactly when every item is done, including for no items |
| `TodoLists.Filter` | todolist_test.rb:164-168 | the result holds exactly the items whose state satisfies the predicate, and no more items than the input |
| `TodoLists.FindIndex` | todolist_test.rb:170-173 | the position of the first item with exactly that title, or none when no title matches |
| `TodoLists.FilterAppend` | todolist_test.rb:164-168 | filtering distributes over concatenation, so the original order is kept |
| `TodoLists.FilterCount` | todolist_test.rb:164-168 | a selected item keeps all its occurrences, an unselected one keeps none |
| `TodoLists.DoneAndOpenPartition` | todolist_test.rb:175-191 | `all_done` and `all_not_done` together hold every item exactly as often as the list |
| `TodoLists.DoneIffNothingOpen` | todolist_test.rb:175-191 | the list is done exactly when `all_not_done` is empty, and exactly when `all_done` is the whole list |
| `TodoLists.TodoList.constructor` | todolist_test.rb:19 | a new list has the given title and no items |
| `TodoLists.TodoList.Add` | todolist_test.rb:60-73 | `add` appends an item at the end, duplicates included; any other value (a string, an integer or anything else) raises `TypeError` and changes nothing |
| `TodoLists.TodoList.Append` | todolist_test.rb:60-68 | `<<` is `add` answering the list itself |
| `TodoLists.TodoList.ItemAt` | todolist_test.rb:75-80 | `item_at` succeeds exactly on `[-size, size)` with the item at the normalised index, else `IndexError` |
| `TodoLists.TodoList.First` | todolist_test.rb:34-36 | `first` is `item_at(0)`, absent on an empty list |
| `TodoLists.TodoList.Last` | todolist_test.rb:38-40 | `last` is `item_at(-1)`, absent on an empty list |
| `TodoLists.TodoList.Shift` | todolist_test.rb:42-46 | `shift` answers the old first item and removes position 0 only |
| `TodoLists.TodoList.Pop` | todolist_test.rb:48-52 | `pop` answers the old last item and removes the last position only |
| `TodoLists.TodoList.RemoveAt` | todolist_test.rb:109-117 | `remove_at` answers what `item_at` would and removes exactly that position; out of range it raises `IndexError` and changes nothing |
| `TodoLists.TodoList.MarkDoneAt` | todolist_test.rb:82-90 | `mark_done_at` marks the item at the normalised index done, changes no other item and not the order; out of range it raises `IndexError` |
| `TodoLists.TodoList.MarkUndoneAt` | todolist_test.rb:92-102 | `mark_undone_at` marks the item at the normalised index not done, changes no other item and not the order; out of range it raises `IndexError` |
| `TodoLists.TodoList.IsDone` | todolist_test.rb:54-58 | `done?` holds exactly when every item is done |
| `TodoLists.TodoList.Done` | todolist_test.rb:104-107 | `done!` makes every item done and keeps the order |
| `TodoLists.TodoList.MarkAllDone` | todolist_test.rb:199-203 | `mark_all_done` makes every item done, keeps the order and answers the list itself |
| `TodoLists.TodoList.MarkAllUndone` | todolist_test.rb:205-210 | `mark_all_undone` makes every item not done, keeps the order and answers the list itself |
| `TodoLists.TodoList.Each` | todolist_test.rb:151-162 | `each` visits exactly the items in order and answers the list itself |
| `TodoLists.TodoList.Select` | todolist_test.rb:164-168 | `select` gives a new list with the same title holding the filtered items; the receiver is untouched |
| `TodoLists.TodoList.AllDone` | todolist_test.rb:175-181 | `all_done` is `select` by done |
| `TodoLists.TodoList.AllNotDone` | todolist_test.rb:183-191 | `all_not_done` is `select` by not done |
| `TodoLists.TodoList.FindByTitle` | todolist_test.rb:170-173 | `find_by_title` answers the first item with exactly that title, and nothing exactly when no title matches |
| `TodoLists.TodoList.MarkDone` | todolist_test.rb:193-197 | `mark_done(title)` marks the item `find_by_title` finds and answers it, answers nil (`None`) on a miss, changes no other item |
| `TodoLists.TodoList.ToString` | todolist_test.rb:119-149 | `to_s` renders the title and the items so that, titles being newline-free, the text reads back as them |
| `Scenarios.Setup` | todolist_test.rb:13-23 | the fixture: three distinct open items added in order to "Today's Todos" |
| `Scenarios.EndsScenario` | todolist_test.rb:26-40 | `to_a` is `[todo1, todo2, todo3]`, `size` is 3, `first` is `todo1` and `last` is `todo3`, the fixture's own items |
| `Scenarios.ShiftScenario` | todolist_test.rb:42-46 | `shift` answers `todo1` and leaves `[todo2, todo3]` |
| `Scenarios.PopScenario` | todolist_test.rb:48-52 | `pop` answers `todo3` and leaves `[todo1, todo2]` |
| `Scenarios.DoneQueryScenario` | todolist_test.rb:54-58 | `done?` is false, then true after marking the items through outside references |
| `Scenarios.TypeErrorScenario` | todolist_test.rb:60-63 | `add("ok")` and `<< 5` raise `TypeError` and leave the items `[todo1, todo2, todo3]` |
| `Scenarios.AppendDuplicateScenario` | todolist_test.rb:65-68 | `<< todo3` leaves `[todo1, todo2, todo3, todo3]` |
| `Scenarios.AddDuplicateScenario` | todolist_test.rb:70-73 | `add(todo3)` leaves `[todo1, todo2, todo3, todo3]` |
| `Scenarios.ItemAtScenario` | todolist_test.rb:75-80 | `item_at(4)` and `item_at(-4)` raise `IndexError`; 0 and -1 give `todo1` and `todo3` |
| `Scenarios.MarkDoneAtScenario` | todolist_test.rb:82-90 | marking 0 and -1 done leaves the middle item open |
| `Scenarios.MarkUndoneAtScenario` | todolist_test.rb:92-102 | after `done!`, unmarking 0 and -1 leaves only the middle item done |
| `Scenarios.DoneScenario` | todolist_test.rb:104-107 | `done!` marks every item the caller holds |
| `Scenarios.RemoveAtOutOfRangeScenario` | todolist_test.rb:109-111 | `remove_at(4)` and `remove_at(-4)` raise `IndexError`, and the list still holds todo1, todo2, todo3 in order |
| `Scenarios.RemoveAtScenario` | todolist_test.rb:112-116 | `remove_at(0)` then `remove_at(-1)` answer `todo1` and `todo3` and leave `[todo2]` |
| `Scenarios.OpenFixtureText` | todolist_test.rb:119-127 | the exact text of the fixture with nothing done |
| `Scenarios.MiddleDoneFixtureText` | todolist_test.rb:129-138 | the exact text of the fixture with the middle item done |
| `Scenarios.DoneFixtureText` | todolist_test.rb:140-149 | the exact text of the fixture with every item done |
| `Scenarios.ToStringScenario` | todolist_test.rb:119-127 | `to_s` of the fixture, byte for byte |
| `Scenarios.ToStringOneDoneScenario` | todolist_test.rb:129-138 | `to_s` after `mark_done_at(1)`, byte for byte |
| `Scenarios.ToStringAllDoneScenario` | todolist_test.rb:140-149 | `to_s` after `done!`, byte for byte |
| `Scenarios.EachScenario` | todolist_test.rb:151-162 | `each` visits `todo1`, `todo2`, `todo3` in order, whose titles are the printed lines, and answers the list |
| `Scenarios.SelectScenario` | todolist_test.rb:164-168 | selecting titles before "G" keeps the list's title and gives `[todo1, todo2]` |
| `Scenarios.FindByTitleScenario` | todolist_test.rb:170-173 | "Go to gym" finds `todo3`, "Go to space" finds nothing |
| `Scenarios.AllDoneEmptyScenario` | todolist_test.rb:175-176 | `all_done` is empty while nothing is done |
| `Scenarios.AllDoneScenario` | todolist_test.rb:177-180 | `all_done` renders like a new list holding only the done item |
| `Scenarios.AllNotDoneScenario` | todolist_test.rb:183-188 | `all_not_done` renders like a new list holding only the open item |
| `Scenarios.AllNotDoneEmptyScenario` | todolist_test.rb:189-190 | `all_not_done` is empty once every item is done |
| `Scenarios.MarkDoneScenario` | todolist_test.rb:193-197 | `mark_done("Go to space")` answers nil and `mark_done("Go to gym")` marks `todo3` |
| `Scenarios.MarkAllScenario` | todolist_test.rb:199-210 | `mark_all_done` and `mark_all_undone` answer the list itself and set every flag |

## Left out

- The implementation file `todolist.rb` is not part of this model; behaviour is taken from the tests, so where that file could differ from them (for instance a `remove_at` built on `Array#delete`, which would drop every occurrence of a duplicated item) the model follows the tests: exactly one position is removed.
- The `simplecov` and `minitest` set-up (todolist_test.rb:1-7) is test plumbing.
- Ruby's runtime type check is modelled by the argument type `Value` (an item, a string, an integer, or `OtherValue` for any other kind of value) rather than by dynamic typing.
- `each` is modelled as an in-order traversal that answers the visited items and the list; what a block prints, and the lazy enumerator `each` answers without a block, are not modelled.
- A block given to `select` is modelled as a total function of the item's title and done flag; blocks with side effects or that look at anything else are not. Ruby's string `<` appears only in the one example predicate, written out for a one-character bound.
- `first`, `last`, `shift` and `pop` on an empty list answer an absent value; no test exercises that case.
- The text of an empty list is the header line alone; the tests never render an empty list.
- The return values of `add`, `mark_done_at` and `mark_undone_at` are not asserted by the tests; the model answers success or the error raised. `done!` answers nothing in the model.
- TodoLists.TodoList.MarkDone: a match is answered with the item marked; what Ruby answers for a match is not pinned by the tests, only that a miss answers nil.
- TodoLists.TodoList.ToString: the read-back is stated only for titles without newlines, because a newline inside a title cannot be told apart from a line break.
