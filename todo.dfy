/** One todo item: a title fixed at construction and a done flag that only the
    two mark operations change. */
module TodoItems {

  /** What an item looks like from outside at one moment: the state that
      predicates and renderings see. */
  datatype TodoView = TodoView(title: string, done: bool)

  const DoneMarker: char := 'X'
  const UndoneMarker: char := ' '

  function Marker(done: bool): char {
    if done then DoneMarker else UndoneMarker
  }

  /** The text form of an item: `[X] title` when done, `[ ] title` otherwise. */
  function Line(v: TodoView): string {
    "[" + [Marker(v.done)] + "] " + v.title
  }

  /** The text form is a four-character prefix that shows the state, then the
      title unchanged. */
  lemma LineFormat(v: TodoView)
    ensures |Line(v)| == |v.title| + 4
    ensures Line(v)[..4] == (if v.done then "[X] " else "[ ] ")
    ensures Line(v)[4..] == v.title
  {
    assert Line(v) == ("[" + [Marker(v.done)] + "] ") + v.title;
  }

  /** The rendering loses nothing: two items with the same text form have the
      same title and the same state. */
  lemma LineInjective(v: TodoView, w: TodoView)
    ensures Line(v) == Line(w) <==> v == w
  {
    if Line(v) == Line(w) {
      LineFormat(v);
      LineFormat(w);
      assert v.title == Line(v)[4..] == Line(w)[4..] == w.title;
      assert Line(v)[1] == Marker(v.done) && Line(w)[1] == Marker(w.done);
    }
  }

  class Todo {
    const title: string
    var done: bool

    constructor (title: string)
      ensures this.title == title && !done
    {
      this.title := title;
      done := false;
    }

    function View(): (v: TodoView)
      reads this
      ensures v.title == title && v.done == done
    {
      TodoView(title, done)
    }

    function ToString(): (s: string)
      reads this
      ensures |s| == |title| + 4
      ensures s[..4] == (if done then "[X] " else "[ ] ") && s[4..] == title
    {
      LineFormat(View());
      Line(View())
    }

    method MarkDone()
      modifies this
      ensures done
    {
      done := true;
    }

    method MarkUndone()
      modifies this
      ensures !done
    {
      done := false;
    }

    /** Done exactly when the text form shows the `X` marker. */
    function IsDone(): (b: bool)
      reads this
      ensures b <==> ToString()[..4] == "[X] "
    {
      done
    }

    /** The title, which is what the text form shows after the marker. */
    function GetTitle(): (t: string)
      reads this
      ensures t == ToString()[4..]
    {
      title
    }
  }
}
