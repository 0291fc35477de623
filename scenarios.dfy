/** Clients of the list that replay the concrete expectations of the
    repository's test file against the contracts above: each method builds the
    three-item list `Today's Todos` and states what the calls return. */
module Scenarios {
  import opened Wrappers
  import opened TodoItems
  import opened TodoLists

  /** The fixture: `Buy milk`, `Clean room`, `Go to the gym`, none done. */
  method TodaysTodos() returns (list: TodoList, todo1: Todo, todo2: Todo, todo3: Todo)
    ensures fresh(list) && fresh(todo1) && fresh(todo2) && fresh(todo3)
    ensures list.title == "Today's Todos" && list.todos == [todo1, todo2, todo3]
    ensures todo1.title == "Buy milk" && todo2.title == "Clean room" && todo3.title == "Go to the gym"
    ensures !todo1.done && !todo2.done && !todo3.done
  {
    todo1 := new Todo("Buy milk");
    todo2 := new Todo("Clean room");
    todo3 := new Todo("Go to the gym");
    list := new TodoList("Today's Todos");
    var r1 := list.Add(TodoObject(todo1));
    var r2 := list.Add(TodoObject(todo2));
    var r3 := list.Add(TodoObject(todo3));
  }

  /** A three-item list renders as its header, then the three item lines in
      order, each with its line break. */
  lemma RenderThree(title: string, a: TodoView, b: TodoView, c: TodoView)
    ensures Header(title) + RenderItems([a, b, c])
         == Header(title) + (Line(a) + "\n") + (Line(b) + "\n") + (Line(c) + "\n")
  {
    assert [a, b, c][..2] == [a, b] && [a, b][..1] == [a];
    assert RenderItems([a]) == Line(a) + "\n";
  }

  /** The fixture's text form with nothing done. */
  lemma FreshText()
    ensures Header("Today's Todos") + RenderItems([TodoView("Buy milk", false), TodoView("Clean room", false), TodoView("Go to the gym", false)])
         == "---- Today's Todos ----\n" + "[ ] Buy milk\n" + "[ ] Clean room\n" + "[ ] Go to the gym\n"
  {
    RenderThree("Today's Todos", TodoView("Buy milk", false), TodoView("Clean room", false), TodoView("Go to the gym", false));
    assert Header("Today's Todos") == "---- Today's Todos ----\n";
    assert Line(TodoView("Buy milk", false)) + "\n" == "[ ] Buy milk\n";
    assert Line(TodoView("Clean room", false)) + "\n" == "[ ] Clean room\n";
    assert Line(TodoView("Go to the gym", false)) + "\n" == "[ ] Go to the gym\n";
  }

  /** The fixture's text form with the first item done. */
  lemma FirstDoneText()
    ensures Header("Today's Todos") + RenderItems([TodoView("Buy milk", true), TodoView("Clean room", false), TodoView("Go to the gym", false)])
         == "---- Today's Todos ----\n" + "[X] Buy milk\n" + "[ ] Clean room\n" + "[ ] Go to the gym\n"
  {
    RenderThree("Today's Todos", TodoView("Buy milk", true), TodoView("Clean room", false), TodoView("Go to the gym", false));
    assert Header("Today's Todos") == "---- Today's Todos ----\n";
    assert Line(TodoView("Buy milk", true)) + "\n" == "[X] Buy milk\n";
    assert Line(TodoView("Clean room", false)) + "\n" == "[ ] Clean room\n";
    assert Line(TodoView("Go to the gym", false)) + "\n" == "[ ] Go to the gym\n";
  }

  /** The fixture's text form with every item done. */
  lemma AllDoneText()
    ensures Header("Today's Todos") + RenderItems([TodoView("Buy milk", true), TodoView("Clean room", true), TodoView("Go to the gym", true)])
         == "---- Today's Todos ----\n" + "[X] Buy milk\n" + "[X] Clean room\n" + "[X] Go to the gym\n"
  {
    RenderThree("Today's Todos", TodoView("Buy milk", true), TodoView("Clean room", true), TodoView("Go to the gym", true));
    assert Header("Today's Todos") == "---- Today's Todos ----\n";
    assert Line(TodoView("Buy milk", true)) + "\n" == "[X] Buy milk\n";
    assert Line(TodoView("Clean room", true)) + "\n" == "[X] Clean room\n";
    assert Line(TodoView("Go to the gym", true)) + "\n" == "[X] Go to the gym\n";
  }

  /** The text form of the fresh fixture, written one line per literal; the
      last line keeps its line break. */
  method RenderFresh() returns (text: string)
    ensures text == "---- Today's Todos ----\n" + "[ ] Buy milk\n" + "[ ] Clean room\n" + "[ ] Go to the gym\n"
  {
    var list, todo1, todo2, todo3 := TodaysTodos();
    text := list.ToString();
    assert Views(list.todos) == [TodoView("Buy milk", false), TodoView("Clean room", false), TodoView("Go to the gym", false)];
    FreshText();
  }

  /** The text form after marking the first item through its index. */
  method RenderFirstDone() returns (text: string)
    ensures text == "---- Today's Todos ----\n" + "[X] Buy milk\n" + "[ ] Clean room\n" + "[ ] Go to the gym\n"
  {
    var list, todo1, todo2, todo3 := TodaysTodos();
    var r := list.MarkDoneAt(0);
    text := list.ToString();
    assert Views(list.todos) == [TodoView("Buy milk", true), TodoView("Clean room", false), TodoView("Go to the gym", false)];
    FirstDoneText();
  }

  /** The text form after marking every item. */
  method RenderAllDone() returns (text: string)
    ensures text == "---- Today's Todos ----\n" + "[X] Buy milk\n" + "[X] Clean room\n" + "[X] Go to the gym\n"
  {
    var list, todo1, todo2, todo3 := TodaysTodos();
    list.MarkAllDone();
    assert todo1 in list.todos && todo2 in list.todos && todo3 in list.todos;
    assert todo1.done && todo2.done && todo3.done;
    assert Views(list.todos) == [TodoView("Buy milk", true), TodoView("Clean room", true), TodoView("Go to the gym", true)];
    text := list.ToString();
    AllDoneText();
  }

  /** `itemAt` on the three-item list: index 1 is the fixture's second item
      itself, index 4 throws. */
  method ItemAtScenario() returns (todo2: Todo, second: Result<Todo, Error>, beyond: Result<Todo, Error>)
    ensures todo2.title == "Clean room" && second == Ok(todo2)
    ensures beyond == Err(ReferenceError(4))
  {
    var list, todo1, todo3;
    list, todo1, todo2, todo3 := TodaysTodos();
    second := list.ItemAt(1);
    beyond := list.ItemAt(4);
  }

  /** `removeAt(0)` returns the first item itself wrapped in a one-element
      sequence and leaves the other two in order; `removeAt(4)` then throws. */
  method RemoveAtScenario() returns (todo1: Todo, todo2: Todo, todo3: Todo,
                                     removed: Result<seq<Todo>, Error>, rest: seq<Todo>,
                                     beyond: Result<seq<Todo>, Error>)
    ensures todo1 != todo2 && todo2 != todo3 && todo1 != todo3
    ensures removed == Ok([todo1])
    ensures rest == [todo2, todo3]
    ensures beyond == Err(ReferenceError(4))
  {
    var list;
    list, todo1, todo2, todo3 := TodaysTodos();
    removed := list.RemoveAt(0);
    rest := list.todos;
    beyond := list.RemoveAt(4);
  }

  /** `add` refuses a plain object, a number and a string, and the size stays 3. */
  method TypeScenario() returns (r1: Outcome<Error>, r2: Outcome<Error>, r3: Outcome<Error>, size: nat)
    ensures r1.Fail? && r1.error.TypeError? && r2.Fail? && r2.error.TypeError? && r3.Fail? && r3.error.TypeError?
    ensures size == 3
  {
    var list, todo1, todo2, todo3 := TodaysTodos();
    r1 := list.Add(PlainObject);
    r2 := list.Add(Number(1));
    r3 := list.Add(Text("test"));
    size := list.Size();
  }

  /** `isDone` after marking every item, then after unmarking the first. */
  method DoneScenario() returns (afterAll: bool, afterUndo: bool, othersDone: bool)
    ensures afterAll && !afterUndo && othersDone
  {
    var list, todo1, todo2, todo3 := TodaysTodos();
    list.MarkAllDone();
    afterAll := list.IsDone();
    var r := list.MarkUndoneAt(0);
    afterUndo := list.IsDone();
    othersDone := todo2.done && todo3.done;
  }

  /** `shift` and `pop` return the end items themselves and keep the middle one. */
  method ShiftPopScenario() returns (todo1: Todo, todo2: Todo, todo3: Todo,
                                     shifted: Option<Todo>, popped: Option<Todo>, left: seq<Todo>)
    ensures todo1 != todo2 && todo2 != todo3 && todo1 != todo3
    ensures shifted == Some(todo1) && popped == Some(todo3)
    ensures left == [todo2]
  {
    var list;
    list, todo1, todo2, todo3 := TodaysTodos();
    shifted := list.Shift();
    popped := list.Pop();
    left := list.todos;
  }

  /** Filtering the done items gives a different list holding the first item
      itself, while the original keeps all three. */
  method FilterScenario() returns (todo1: Todo, todo2: Todo, todo3: Todo, distinct: bool,
                                   kept: seq<Todo>, original: seq<Todo>)
    ensures todo1 != todo2 && todo2 != todo3 && todo1 != todo3
    ensures distinct && kept == [todo1] && original == [todo1, todo2, todo3]
  {
    var list;
    list, todo1, todo2, todo3 := TodaysTodos();
    var r := list.MarkDoneAt(0);
    assert todo2 in list.todos && todo3 in list.todos;
    assert todo1.done && !todo2.done && !todo3.done;
    var done := list.AllDone();
    distinct := done != list;
    assert list.todos[..2] == [todo1, todo2] && [todo1, todo2][..1] == [todo1] && [todo1][..0] == [];
    assert Select(Completed, [todo1]) == [todo1];
    assert Select(Completed, [todo1, todo2]) == [todo1];
    kept := done.todos;
    original := list.todos;
  }

  /** `markDoneAt` twice on the same index has the effect of once. */
  method MarkDoneAtTwice(list: TodoList, idx: int) returns (first: Outcome<Error>, second: Outcome<Error>)
    modifies if 0 <= idx < |list.todos| then {list.todos[idx]} else {}
    ensures first == second
    ensures first.Pass? <==> 0 <= idx < |list.todos|
    ensures first.Pass? ==> list.todos[idx].done
    ensures forall t :: t in list.todos && (first.Fail? || t != list.todos[idx]) ==> t.done == old(t.done)
  {
    first := list.MarkDoneAt(idx);
    second := list.MarkDoneAt(idx);
  }
}
