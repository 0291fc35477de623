# OO-ToDoList in Dafny

A model of the two classes in `todolist.js`. `Todo` is a task with a fixed title and a
`done` flag. `TodoList` is a titled, ordered list of `Todo` references. The list
supports appending with a type check, index-validated access and removal, total
empty-safe accessors, bulk marking, filtering into a new list, search by title,
a defensive copy and a text rendering.

Layout:

- `wrappers.dfy` (module `Wrappers`): `Option` stands for JavaScript's `undefined`
  result. `Result` and `Outcome` stand for an operation that may throw.
- `todo.dfy` (module `TodoItems`): the class `Todo`. The value `TodoView` is an item's
  observable state (title, done). `Line` is an item's text form.
- `todolist.dfy` (module `TodoLists`): the class `TodoList`, its two error kinds, and
  `Value`, the argument of `add`. `Select` is the reference definition of filtering.
  `Header` and `RenderItems` define the text form.
- `scenarios.dfy` (module `Scenarios`): client methods. They replay the concrete
  expectations of `todolist.test.js` against the contracts.

Modelling decisions:

- Items are objects, and the list stores references (`todos: seq<Todo>`). Marking an
  item through one list is therefore visible through every list that holds it. A list
  may hold the same item twice. For that reason, the contracts of the mark-at-index
  operations speak of objects (`t != todos[idx]`), not of positions.
- `Todo.title` and `TodoList.title` are `const`: the code never reassigns them.
- `add` takes a tagged `Value`: a `Todo`, a plain object, a number or a string. Any
  value that is not a `Todo` gives `TypeError` and leaves the list unchanged.
- Exceptions are returned values. `TypeError` carries the message of
  todolist.js:44. `ReferenceError` carries the index that the message of
  todolist.js:145 prints.
- Filter callbacks are pure functions of an item's state (`TodoView -> bool`).
  `allDone`, `allNotDone` and `findByTitle` pass `Completed`, `Pending` and
  `TitleIs(title)`.
- `findByTitle` is a function: the first element of `Select(TitleIs(title), todos)`.
  The intermediate list that the code allocates is never seen by callers.
- `toString` follows the code and keeps the line break after the last item. The
  expected strings in todolist.test.js:109-130 leave that line break out. The test
  at todolist.test.js:59-64 calls `add` on the class rather than on a list, so it
  does not exercise the type check. `Scenarios.TypeScenario` states what the code
  does on a list instance.
- The list's `toString` is `Header(title) + RenderItems(Views(todos))`.
  `RenderItems` is the left fold of `reduce`. `RenderFront`, `RenderConcat`,
  `RenderUpdate` and `LineFormat` characterise it.

## Model

| member | source | states |
|---|---|---|
| TodoItems.LineFormat | todolist.js:14-17 | An item's text form is `[X] ` when done or `[ ] ` otherwise, followed by the title unchanged; its length is the title's plus four. |
| TodoItems.LineInjective | todolist.js:14-17 | Two states have the same text form exactly when they are equal, so the rendering shows both the title and the flag. |
| TodoItems.Todo.constructor | todolist.js:9-12 | A new item has the given title and is not done. |
| TodoItems.Todo.ToString | todolist.js:14-17 | The rendering of the item's current state: marker prefix, then the title. |
| TodoItems.Todo.IsDone | todolist.js:27-29 | True exactly when the item's text form starts with the `[X] ` marker. |
| TodoItems.Todo.GetTitle | todolist.js:31-33 | The title, which is exactly what the text form shows after the marker. |
| TodoItems.Todo.MarkDone | todolist.js:19-21 | Afterwards the item is done, and only this item may change. Because the new state depends on nothing else, a second call changes nothing. |
| TodoItems.Todo.MarkUndone | todolist.js:23-25 | Afterwards the item is not done, and only this item may change. |
| TodoLists.Select | todolist.js:102-112 | The filtered items are never more than the input, and each one is an input item that satisfies the predicate. |
| TodoLists.SelectMember | todolist.js:102-112 | An item is in the filtered list if and only if it is in the list and satisfies the predicate. |
| TodoLists.SelectConcat | todolist.js:102-112 | Filtering a concatenation gives the filtered parts concatenated, so kept items stay in their original order. |
| TodoLists.SelectKeepsAll | todolist.js:118-120 | Filtering returns the whole list if and only if every item satisfies the predicate. |
| TodoLists.SelectKeepsNone | todolist.js:122-124 | Filtering returns nothing if and only if no item satisfies the predicate. |
| TodoLists.SelectIdempotent | todolist.js:102-112 | Filtering a filtered list again with the same predicate changes nothing. |
| TodoLists.SelectPartition | todolist.js:102-112 | For any predicate `q` that is the negation of `p`, the items kept by `p` and by `q` together number exactly the list's size. |
| TodoLists.DoneSplit | todolist.js:118-124 | The items `allDone` keeps and the items `allNotDone` keeps together number exactly the list's size. |
| TodoLists.SelectFirstIsEarliest | todolist.js:114-116 | The first filtered item is the earliest item in the list that satisfies the predicate. |
| TodoLists.RenderConcat | todolist.js:92-96 | The left fold that renders the items renders a concatenation as the two renderings, one after the other. |
| TodoLists.RenderFront | todolist.js:92-96 | The rendering is the first item's line and a line break, followed by the rendering of the rest. |
| TodoLists.RenderUpdate | todolist.js:92-96 | Changing the state at one position changes that item's line only; the lines before and after are unchanged. |
| TodoLists.TodoList.constructor | todolist.js:37-40 | A new list has the given title and no items. |
| TodoLists.TodoList.Add | todolist.js:42-48 | A `Todo` is appended at the end, with earlier items unchanged. Any other value gives `TypeError` and the list is unchanged. |
| TodoLists.TodoList.Size | todolist.js:50-52 | The number of items. Indices are dense: `itemAt(i)` succeeds exactly for `0 <= i < size`. |
| TodoLists.TodoList.ValidateIndex | todolist.js:143-147 | Passes if and only if the index names an existing item; otherwise gives `ReferenceError` for that index. |
| TodoLists.TodoList.ItemAt | todolist.js:62-65 | Succeeds if and only if `0 <= idx < size`, and then returns the item at `idx`. Any other index gives `ReferenceError(idx)`. |
| TodoLists.TodoList.First | todolist.js:54-56 | Present exactly when `itemAt(0)` succeeds, and then the same item. On an empty list it is absent, never an error. |
| TodoLists.TodoList.Last | todolist.js:58-60 | Present exactly when `itemAt(size - 1)` succeeds, and then the same item. On an empty list it is absent, never an error. |
| TodoLists.TodoList.MarkDoneAt | todolist.js:67-69 | Fails exactly as `itemAt` does, with no change. On success the indexed item is done, and every other item of the list keeps its flag. |
| TodoLists.TodoList.MarkUndoneAt | todolist.js:71-73 | Fails exactly as `itemAt` does, with no change. On success the indexed item is not done, and every other item of the list keeps its flag. |
| TodoLists.TodoList.IsDone | todolist.js:75-77 | Holds if and only if every item, by position, reports `isDone`. |
| TodoLists.TodoList.IsDoneMatchesFilters | todolist.js:75-77 | `isDone` holds if and only if `allDone` keeps every item, and if and only if `allNotDone` keeps none. It holds on an empty list. |
| TodoLists.TodoList.Shift | todolist.js:79-81 | Returns what `first` returned and removes it, keeping the rest in order. On an empty list it returns absent and the list stays empty. |
| TodoLists.TodoList.Pop | todolist.js:83-85 | Returns what `last` returned and removes it, keeping the rest in order. On an empty list it returns absent and the list stays empty. |
| TodoLists.TodoList.RemoveAt | todolist.js:87-90 | On a valid index, returns the one-element sequence of the removed item and leaves the items before and after it. An invalid index gives `ReferenceError` and the list is unchanged. |
| TodoLists.TodoList.ToString | todolist.js:92-96 | The header `---- title ----` and a line break alone on an empty list. Otherwise the header, then the first item's line and a line break, then the rendering of the remaining items. |
| TodoLists.TodoList.Filter | todolist.js:102-112 | Returns a fresh list, so not this one, with the same title. Its items are `Select(p, todos)`: the same references, in order. Nothing that existed before changes. |
| TodoLists.TodoList.FindByTitle | todolist.js:114-116 | Absent if and only if no item has exactly that title. Otherwise it is the item at the earliest position whose title matches. |
| TodoLists.TodoList.AllDone | todolist.js:118-120 | A fresh list with the same title, holding the done items in order. |
| TodoLists.TodoList.AllNotDone | todolist.js:122-124 | A fresh list with the same title, holding the items that are not done, in order. |
| TodoLists.TodoList.MarkDone | todolist.js:126-129 | Marks exactly the item `findByTitle` returns, and every other item keeps its flag. No match means no change and no error. |
| TodoLists.TodoList.MarkAllDone | todolist.js:131-133 | Afterwards every item is done and `isDone` holds. Only the list's items may change. |
| TodoLists.TodoList.MarkAllUndone | todolist.js:135-137 | Afterwards no item is done, so `isDone` fails on a non-empty list. Only the list's items may change. |
| TodoLists.TodoList.ToArray | todolist.js:139-141 | Returns a fresh array equal to the items, so writing to it cannot reach the list. Each valid `itemAt(i)` returns the array's `i`-th reference. |
| Scenarios.TodaysTodos | todolist.test.js:10-19 | The fixture: three fresh items added in order to `Today's Todos`, none done. |
| Scenarios.RenderThree | todolist.js:92-96 | A three-item list renders as its header, then three lines, each with its line break. |
| Scenarios.FreshText | todolist.test.js:108-114 | The fixture's exact text with nothing done, including the final line break. |
| Scenarios.FirstDoneText | todolist.test.js:116-122 | The fixture's exact text with the first item done. |
| Scenarios.AllDoneText | todolist.test.js:124-130 | The fixture's exact text with every item done. |
| Scenarios.RenderFresh | todolist.test.js:108-114 | `toString` of the fresh fixture is that exact text. |
| Scenarios.RenderFirstDone | todolist.test.js:116-122 | After `markDoneAt(0)`, `toString` shows `[X]` on the first line only. |
| Scenarios.RenderAllDone | todolist.test.js:124-130 | After `markAllDone`, `toString` shows `[X]` on every line. |
| Scenarios.ItemAtScenario | todolist.test.js:66-70 | `itemAt(1)` is the fixture's second item itself (the same reference), and `itemAt(4)` gives `ReferenceError`. |
| Scenarios.RemoveAtScenario | todolist.test.js:99-106 | `removeAt(0)` returns the singleton of the first item itself and leaves the other two items, in order. Then `removeAt(4)` gives `ReferenceError`. |
| Scenarios.TypeScenario | todolist.test.js:59-64 | Adding a plain object, a number or a string each gives `TypeError`, and the size stays 3. |
| Scenarios.DoneScenario | todolist.test.js:82-97 | After `markAllDone`, `isDone` holds. After `markUndoneAt(0)`, it fails while the other two items stay done. |
| Scenarios.ShiftPopScenario | todolist.test.js:37-47 | `shift` returns the first item itself and `pop` the last, and only the middle item remains. |
| Scenarios.FilterScenario | todolist.test.js:139-146 | Filtering the done items returns a list other than the original, holding only the first item itself. The original keeps its three items in order. |
| Scenarios.MarkDoneAtTwice | todolist.js:67-69 | Calling `markDoneAt` twice on one index returns the same outcome both times and has the effect of a single call. |

## Left out

- The demo script at todolist.js:150-167: it sets global variables and writes to the console.
- `forEach` (todolist.js:98-100): callbacks with arbitrary side effects are not modelled. Its uses inside `filter`, `markAllDone` and `markAllUndone` are written as loops over the items.
- Filter callbacks read only the item's title and flag (`TodoView -> bool`). A callback that reads other state, or that changes the list while iterating, is not modelled.
- Indexes are `int`. JavaScript's `in` check also rejects a missing index (`undefined`), and a fractional or string index would pass or fail by JavaScript's key rules. Neither case can be expressed with an `int` argument.
- `ReferenceError` carries the index, not the formatted message `invalid index: <idx>`.
- Titles are strings. JavaScript accepts any value as a title and converts it to text when rendering.
- The runtime `instanceof` test becomes the `TodoObject` tag of `Value`. Objects shaped like a `Todo` but not built by its constructor fall under `PlainObject`, and they are rejected as the code rejects them.
- `toArray` returns a Dafny array. The JavaScript array's other behaviour (growth, holes) is not modelled.
