/** A titled, ordered list of todo items. The list holds references: the same
    item may sit in several lists (or twice in one) and marking it through one
    place is visible through every other. */
module TodoLists {
  import opened Wrappers
  import opened TodoItems

  /** The two exceptions the list throws. `ReferenceError` carries the index
      that the message `invalid index: <idx>` reports. */
  datatype Error = TypeError(message: string) | ReferenceError(index: int)

  const AddTypeMessage: string := "can only add Todo objects"

  /** A JavaScript value handed to `add`: a `Todo` instance or something else. */
  datatype Value = TodoObject(todo: Todo) | PlainObject | Number(n: int) | Text(s: string)

  // ---------------------------------------------------------------------------
  // Filtering

  /** The callback of `allDone`. */
  predicate Completed(v: TodoView) {
    v.done
  }

  /** The callback of `allNotDone`. */
  predicate Pending(v: TodoView) {
    !v.done
  }

  /** The callback of `findByTitle`: exact, case-sensitive title equality. */
  function TitleIs(title: string): TodoView -> bool {
    (v: TodoView) => v.title == title
  }

  /** The items of `s` whose state satisfies `p`, in their order in `s`, as the
      same references. Written as the loop in `filter` builds it: one item at a
      time, appending at the end. */
  function Select(p: TodoView -> bool, s: seq<Todo>): (r: seq<Todo>)
    reads s
    ensures |r| <= |s|
    ensures forall t :: t in r ==> t in s && p(t.View())
  {
    if s == [] then []
    else
      var last := s[|s| - 1];
      Select(p, s[..|s| - 1]) + (if p(last.View()) then [last] else [])
  }

  /** An item is kept exactly when it is in the list and satisfies `p`. */
  lemma {:induction false} SelectMember(p: TodoView -> bool, s: seq<Todo>, t: Todo)
    ensures t in Select(p, s) <==> t in s && p(t.View())
  {
    if s != [] && t in s && p(t.View()) {
      var init := s[..|s| - 1];
      assert s == init + [s[|s| - 1]];
      if t != s[|s| - 1] {
        assert t in init;
        SelectMember(p, init, t);
      }
    }
  }

  /** Filtering a concatenation filters each part and keeps the parts in order:
      kept items appear in the order they had in the list. */
  lemma {:induction false} SelectConcat(p: TodoView -> bool, a: seq<Todo>, b: seq<Todo>)
    ensures Select(p, a + b) == Select(p, a) + Select(p, b)
  {
    if b == [] {
      assert a + b == a;
    } else {
      var init := b[..|b| - 1];
      assert (a + b)[..|a + b| - 1] == a + init;
      SelectConcat(p, a, init);
    }
  }

  /** Filtering keeps the whole list exactly when every item satisfies `p`. */
  lemma {:induction false} SelectKeepsAll(p: TodoView -> bool, s: seq<Todo>)
    ensures Select(p, s) == s <==> forall t :: t in s ==> p(t.View())
  {
    if s != [] {
      var init := s[..|s| - 1];
      assert s == init + [s[|s| - 1]];
      SelectKeepsAll(p, init);
      if Select(p, s) == s {
        assert |Select(p, init)| <= |init|;
      }
    }
  }

  /** Filtering keeps nothing exactly when no item satisfies `p`. */
  lemma {:induction false} SelectKeepsNone(p: TodoView -> bool, s: seq<Todo>)
    ensures Select(p, s) == [] <==> forall t :: t in s ==> !p(t.View())
  {
    if s != [] {
      var init := s[..|s| - 1];
      assert s == init + [s[|s| - 1]];
      SelectKeepsNone(p, init);
    }
  }

  /** Filtering twice with the same predicate changes nothing the second time. */
  lemma SelectIdempotent(p: TodoView -> bool, s: seq<Todo>)
    ensures Select(p, Select(p, s)) == Select(p, s)
  {
    SelectKeepsAll(p, Select(p, s));
  }

  /** Every item lands in exactly one of the lists filtered by `p` and by a
      predicate `q` that is its negation. */
  lemma {:induction false} SelectPartition(p: TodoView -> bool, q: TodoView -> bool, s: seq<Todo>)
    requires forall v :: q(v) == !p(v)
    ensures |Select(p, s)| + |Select(q, s)| == |s|
  {
    if s != [] {
      SelectPartition(p, q, s[..|s| - 1]);
    }
  }

  /** `allDone` and `allNotDone` split the list: together they hold as many
      items as the list. */
  lemma {:induction false} DoneSplit(s: seq<Todo>)
    ensures |Select(Completed, s)| + |Select(Pending, s)| == |s|
  {
    SelectPartition(Completed, Pending, s);
  }

  /** The first kept item is the earliest item of the list that satisfies `p`. */
  lemma {:induction false} SelectFirstIsEarliest(p: TodoView -> bool, s: seq<Todo>)
    requires Select(p, s) != []
    ensures exists k :: 0 <= k < |s| && s[k] == Select(p, s)[0] && p(s[k].View()) &&
                        forall j :: 0 <= j < k ==> !p(s[j].View())
  {
    var init, last := s[..|s| - 1], s[|s| - 1];
    assert Select(p, s) == Select(p, init) + (if p(last.View()) then [last] else []);
    if Select(p, init) != [] {
      SelectFirstIsEarliest(p, init);
      var k :| 0 <= k < |init| && init[k] == Select(p, init)[0] && p(init[k].View()) &&
               forall j :: 0 <= j < k ==> !p(init[j].View());
      assert s[k] == init[k] == Select(p, s)[0];
      assert forall j :: 0 <= j < k ==> s[j] == init[j];
    } else {
      SelectKeepsNone(p, init);
      var k := |s| - 1;
      assert p(last.View()) && Select(p, s) == [last];
      assert forall j :: 0 <= j < k ==> s[j] == init[j] && init[j] in init;
      assert s[k] == Select(p, s)[0];
    }
  }

  // ---------------------------------------------------------------------------
  // Rendering

  /** The header line of a list's text form. */
  function Header(title: string): string {
    "---- " + title + " ----\n"
  }

  /** The states of a sequence of items, position by position. */
  function Views(s: seq<Todo>): (vs: seq<TodoView>)
    reads s
    ensures |vs| == |s| && forall i :: 0 <= i < |s| ==> vs[i] == s[i].View()
  {
    seq(|s|, i requires 0 <= i < |s| reads s => s[i].View())
  }

  /** The item lines of a list's text form, built as `reduce` builds them: each
      item's text form followed by a line break, accumulated from the left. */
  function RenderItems(vs: seq<TodoView>): string {
    if vs == [] then ""
    else RenderItems(vs[..|vs| - 1]) + Line(vs[|vs| - 1]) + "\n"
  }

  /** Rendering a concatenation renders each part in order. */
  lemma {:induction false} RenderConcat(a: seq<TodoView>, b: seq<TodoView>)
    ensures RenderItems(a + b) == RenderItems(a) + RenderItems(b)
  {
    if b == [] {
      assert a + b == a;
    } else {
      var init := b[..|b| - 1];
      assert (a + b)[..|a + b| - 1] == a + init;
      RenderConcat(a, init);
    }
  }

  /** The rendering read from the front: the first item's line, then the rest. */
  lemma RenderFront(vs: seq<TodoView>)
    requires vs != []
    ensures RenderItems(vs) == Line(vs[0]) + "\n" + RenderItems(vs[1..])
  {
    assert vs == [vs[0]] + vs[1..];
    RenderConcat([vs[0]], vs[1..]);
    assert RenderItems([vs[0]]) == RenderItems([]) + Line(vs[0]) + "\n";
  }

  /** Changing the state of the item at position `k` changes its line only;
      the lines before and after it stay as they were. */
  lemma RenderUpdate(vs: seq<TodoView>, k: int, v: TodoView)
    requires 0 <= k < |vs|
    ensures RenderItems(vs[k := v]) == RenderItems(vs[..k]) + Line(v) + "\n" + RenderItems(vs[k + 1..])
  {
    var ws := vs[k := v];
    assert ws == vs[..k] + ([v] + vs[k + 1..]);
    RenderConcat(vs[..k], [v] + vs[k + 1..]);
    RenderFront([v] + vs[k + 1..]);
    assert ([v] + vs[k + 1..])[1..] == vs[k + 1..];
  }

  // ---------------------------------------------------------------------------
  // The list

  class TodoList {
    const title: string
    var todos: seq<Todo>

    constructor (title: string)
      ensures this.title == title && todos == []
    {
      this.title := title;
      todos := [];
    }

    /** Appends a `Todo`; any other value throws `TypeError` and changes nothing. */
    method Add(obj: Value) returns (r: Outcome<Error>)
      modifies this
      ensures r == if obj.TodoObject? then Pass else Fail(TypeError(AddTypeMessage))
      ensures todos == if obj.TodoObject? then old(todos) + [obj.todo] else old(todos)
    {
      if !obj.TodoObject? {
        return Fail(TypeError(AddTypeMessage));
      }
      todos := todos + [obj.todo];
      r := Pass;
    }

    /** The number of items. Indices are dense: exactly those below the size
        name an item. */
    function Size(): (n: nat)
      reads this
      ensures n == |todos|
      ensures forall i :: ItemAt(i).Ok? <==> 0 <= i < n
    {
      |todos|
    }

    /** Throws `ReferenceError` unless `idx` names an existing item. */
    function ValidateIndex(idx: int): (r: Outcome<Error>)
      reads this
      ensures r.Pass? <==> 0 <= idx < |todos|
      ensures r.Fail? ==> r.error == ReferenceError(idx)
    {
      if idx < 0 || |todos| <= idx then Fail(ReferenceError(idx)) else Pass
    }

    function ItemAt(idx: int): (r: Result<Todo, Error>)
      reads this
      ensures r.Ok? <==> 0 <= idx < |todos|
      ensures r.Ok? ==> r.value == todos[idx]
      ensures r.Err? ==> r.error == ReferenceError(idx)
    {
      match ValidateIndex(idx)
      case Fail(e) => Err(e)
      case Pass => Ok(todos[idx])
    }

    /** The first item, or absent on an empty list: never an error. */
    function First(): (r: Option<Todo>)
      reads this
      ensures r.Some? <==> ItemAt(0).Ok?
      ensures r.Some? ==> r.value == ItemAt(0).value
    {
      if todos == [] then None else Some(todos[0])
    }

    /** The last item, or absent on an empty list: never an error. */
    function Last(): (r: Option<Todo>)
      reads this
      ensures r.Some? <==> ItemAt(Size() - 1).Ok?
      ensures r.Some? ==> r.value == ItemAt(Size() - 1).value
    {
      if todos == [] then None else Some(todos[Size() - 1])
    }

    method MarkDoneAt(idx: int) returns (r: Outcome<Error>)
      modifies if 0 <= idx < |todos| then {todos[idx]} else {}
      ensures r == match ItemAt(idx) case Ok(_) => Pass case Err(e) => Fail(e)
      ensures r.Pass? ==> todos[idx].done
      ensures forall t :: t in todos && (r.Fail? || t != todos[idx]) ==> t.done == old(t.done)
    {
      match ItemAt(idx)
      case Err(e) =>
        r := Fail(e);
      case Ok(item) =>
        item.MarkDone();
        r := Pass;
    }

    method MarkUndoneAt(idx: int) returns (r: Outcome<Error>)
      modifies if 0 <= idx < |todos| then {todos[idx]} else {}
      ensures r == match ItemAt(idx) case Ok(_) => Pass case Err(e) => Fail(e)
      ensures r.Pass? ==> !todos[idx].done
      ensures forall t :: t in todos && (r.Fail? || t != todos[idx]) ==> t.done == old(t.done)
    {
      match ItemAt(idx)
      case Err(e) =>
        r := Fail(e);
      case Ok(item) =>
        item.MarkUndone();
        r := Pass;
    }

    /** True when every item is done; true of an empty list. */
    predicate IsDone()
      reads this, todos
      ensures IsDone() <==> forall i :: 0 <= i < |todos| ==> todos[i].IsDone()
    {
      forall t :: t in todos ==> t.done
    }

    /** `isDone` agrees with the filters: it holds exactly when `allDone`
        keeps every item and when `allNotDone` keeps none. */
    lemma IsDoneMatchesFilters()
      ensures IsDone() <==> Select(Completed, todos) == todos
      ensures IsDone() <==> Select(Pending, todos) == []
      ensures todos == [] ==> IsDone()
    {
      SelectKeepsAll(Completed, todos);
      SelectKeepsNone(Pending, todos);
    }

    /** Removes and returns the first item; on an empty list returns absent. */
    method Shift() returns (r: Option<Todo>)
      modifies this
      ensures r == old(First())
      ensures todos == if old(todos) == [] then [] else old(todos[1..])
    {
      if todos == [] {
        return None;
      }
      r := Some(todos[0]);
      todos := todos[1..];
    }

    /** Removes and returns the last item; on an empty list returns absent. */
    method Pop() returns (r: Option<Todo>)
      modifies this
      ensures r == old(Last())
      ensures todos == if old(todos) == [] then [] else old(todos[..|todos| - 1])
    {
      if todos == [] {
        return None;
      }
      r := Some(todos[|todos| - 1]);
      todos := todos[..|todos| - 1];
    }

    /** Removes the item at `idx` and returns it wrapped in a one-element
        sequence, as `splice` does; an invalid index throws and changes nothing. */
    method RemoveAt(idx: int) returns (r: Result<seq<Todo>, Error>)
      modifies this
      ensures r.Ok? <==> 0 <= idx < |old(todos)|
      ensures r.Ok? ==> r.value == [old(todos)[idx]] &&
                        todos == old(todos)[..idx] + old(todos)[idx + 1..]
      ensures r.Err? ==> r.error == ReferenceError(idx) && todos == old(todos)
    {
      var v := ValidateIndex(idx);
      if v.Fail? {
        return Err(v.error);
      }
      r := Ok(todos[idx..idx + 1]);
      todos := todos[..idx] + todos[idx + 1..];
    }

    /** The list's text form: the header line, then one line per item in order,
        each ending with a line break. */
    function ToString(): (s: string)
      reads this, todos
      ensures todos == [] ==> s == Header(title)
      ensures todos != [] ==> s == Header(title) + Line(todos[0].View()) + "\n" + RenderItems(Views(todos[1..]))
    {
      var vs := Views(todos);
      if vs != [] then
        RenderFront(vs);
        assert vs[1..] == Views(todos[1..]);
        Header(title) + RenderItems(vs)
      else
        Header(title) + RenderItems(vs)
    }

    /** A new list with the same title holding, as the same references and in
        order, the items whose state satisfies `p`. Nothing existing changes. */
    method Filter(p: TodoView -> bool) returns (list: TodoList)
      ensures fresh(list)
      ensures list.title == title && list.todos == Select(p, todos)
    {
      list := new TodoList(title);
      var i := 0;
      while i < |todos|
        invariant 0 <= i <= |todos|
        invariant fresh(list) && list.title == title
        invariant list.todos == Select(p, todos[..i])
      {
        var t := todos[i];
        assert todos[..i + 1][..i] == todos[..i];
        assert Select(p, todos[..i + 1]) == Select(p, todos[..i]) + (if p(t.View()) then [t] else []);
        if p(t.View()) {
          var added := list.Add(TodoObject(t));
        }
        i := i + 1;
      }
      assert todos[..i] == todos;
    }

    /** The first item whose title is exactly `title`, or absent. */
    function FindByTitle(title: string): (r: Option<Todo>)
      reads this, todos
      ensures r.None? <==> forall t :: t in todos ==> t.title != title
      ensures r.Some? ==> r.value.title == title &&
                          exists k :: 0 <= k < |todos| && todos[k] == r.value &&
                                      forall j :: 0 <= j < k ==> todos[j].title != title
    {
      var matches := Select(TitleIs(title), todos);
      SelectKeepsNone(TitleIs(title), todos);
      if matches == [] then None
      else
        SelectFirstIsEarliest(TitleIs(title), todos);
        Some(matches[0])
    }

    method AllDone() returns (list: TodoList)
      ensures fresh(list)
      ensures list.title == title && list.todos == Select(Completed, todos)
    {
      list := Filter(Completed);
    }

    method AllNotDone() returns (list: TodoList)
      ensures fresh(list)
      ensures list.title == title && list.todos == Select(Pending, todos)
    {
      list := Filter(Pending);
    }

    /** Marks the first item titled `title` done; no match is not an error. */
    method MarkDone(title: string)
      modifies todos
      ensures forall t :: t in todos ==> t.done == (old(FindByTitle(title)) == Some(t) || old(t.done))
    {
      var found := FindByTitle(title);
      if found.Some? {
        found.value.MarkDone();
      }
    }

    method MarkAllDone()
      modifies todos
      ensures forall t :: t in todos ==> t.done
      ensures IsDone()
    {
      var i := 0;
      while i < |todos|
        invariant 0 <= i <= |todos|
        invariant forall j :: 0 <= j < i ==> todos[j].done
      {
        todos[i].MarkDone();
        i := i + 1;
      }
    }

    method MarkAllUndone()
      modifies todos
      ensures forall t :: t in todos ==> !t.done
      ensures todos != [] ==> !IsDone()
    {
      var i := 0;
      while i < |todos|
        invariant 0 <= i <= |todos|
        invariant forall j :: 0 <= j < i ==> !todos[j].done
      {
        todos[i].MarkUndone();
        i := i + 1;
      }
      if todos != [] {
        assert todos[0] in todos && !todos[0].done;
      }
    }

    /** A new array holding the items in order: writing to it leaves the list
        alone, while marking an item through it marks the shared item. */
    method ToArray() returns (a: array<Todo>)
      ensures fresh(a)
      ensures a[..] == todos
      ensures forall i :: 0 <= i < a.Length ==> ItemAt(i) == Ok(a[i])
    {
      var items := todos;
      a := new Todo[|items|](i requires 0 <= i < |items| => items[i]);
    }
  }
}
