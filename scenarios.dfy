/** The test cases of the to-do list, restated against the model. Each method
    builds the shared fixture, performs a test's calls and promises, in its
    ensures, what that test asserts. */
module Scenarios {
  import opened Wrappers
  import opened Text
  import opened Todos
  import opened TodoLists

  function Titles(ts: seq<Todo>): seq<string>
  {
    seq(|ts|, i requires 0 <= i < |ts| => ts[i].title)
  }

  /** Filtering three items, one at a time. */
  lemma FilterThree(a: Todo, b: Todo, c: Todo, p: Entry -> bool)
    ensures Filter([a, b, c], p) == (if p(a.View()) then [a] else [])
                                  + (if p(b.View()) then [b] else [])
                                  + (if p(c.View()) then [c] else [])
  {
    assert [a, b, c] == [a] + [b] + [c];
    FilterAppend([a] + [b], [c], p);
    FilterAppend([a], [b], p);
    assert [a][1..] == [] && [b][1..] == [] && [c][1..] == [];
  }

  /** The rendering of a three-item list, line by line. */
  lemma RenderThree(title: string, e1: Entry, e2: Entry, e3: Entry)
    ensures Render(Listing(title, [e1, e2, e3]))
         == Header(title) + "\n" + ItemLine(e1) + "\n" + ItemLine(e2) + "\n" + ItemLine(e3)
  {
    var h, a, b, c := Header(title), ItemLine(e1), ItemLine(e2), ItemLine(e3);
    assert [h] + ItemLines([e1, e2, e3]) == [h, a, b, c];
    assert Join([c]) == c;
    assert Join([b, c]) == b + "\n" + c by {
      assert [b, c][1..] == [c];
    }
    assert Join([a, b, c]) == a + "\n" + b + "\n" + c by {
      assert [a, b, c][1..] == [b, c];
    }
    assert Join([h, a, b, c]) == h + "\n" + a + "\n" + b + "\n" + c by {
      assert [h, a, b, c][1..] == [a, b, c];
    }
  }

  /** The text of a list holding three items, line by line. */
  lemma ToStringOfThree(list: TodoList, t1: Todo, t2: Todo, t3: Todo)
    requires list.todos == [t1, t2, t3]
    ensures list.ToString() == Render(Listing(list.title, [t1.View(), t2.View(), t3.View()]))
  {
    assert Entries(list.todos) == [t1.View(), t2.View(), t3.View()];
  }

  /** The fixture's items, as the tests name them: three distinct items with
      the titles the fixture gives them. */
  predicate FixtureItems(t1: Todo, t2: Todo, t3: Todo)
  {
    && t1 != t2 && t2 != t3 && t1 != t3
    && t1.title == "Buy milk" && t2.title == "Clean room" && t3.title == "Go to gym"
  }

  /** The fixture: three open items added in order to "Today's Todos". */
  method Setup() returns (list: TodoList, t1: Todo, t2: Todo, t3: Todo)
    ensures fresh(list) && fresh(t1) && fresh(t2) && fresh(t3)
    ensures t1 != t2 && t2 != t3 && t1 != t3
    ensures list.title == "Today's Todos" && list.todos == [t1, t2, t3]
    ensures t1.title == "Buy milk" && t2.title == "Clean room" && t3.title == "Go to gym"
    ensures !t1.done && !t2.done && !t3.done
  {
    t1 := new Todo("Buy milk");
    t2 := new Todo("Clean room");
    t3 := new Todo("Go to gym");
    list := new TodoList("Today's Todos");
    var _ := list.Add(TodoValue(t1));
    var _ := list.Add(TodoValue(t2));
    var _ := list.Add(TodoValue(t3));
  }

  /** `to_a`, `size`, `first` and `last` on the fixture. */
  method EndsScenario() returns (t1: Todo, t2: Todo, t3: Todo, items: seq<Todo>, size: nat,
                                 first: Option<Todo>, last: Option<Todo>)
    ensures FixtureItems(t1, t2, t3)
    ensures items == [t1, t2, t3] && size == 3
    ensures first == Some(t1) && last == Some(t3)
  {
    var list;
    list, t1, t2, t3 := Setup();
    items, size := list.todos, |list.todos|;
    first, last := list.First(), list.Last();
  }

  /** `shift` answers the first item and leaves the other two. */
  method ShiftScenario() returns (t1: Todo, t2: Todo, t3: Todo, shifted: Option<Todo>, rest: seq<Todo>)
    ensures FixtureItems(t1, t2, t3)
    ensures shifted == Some(t1) && rest == [t2, t3]
  {
    var list;
    list, t1, t2, t3 := Setup();
    shifted := list.Shift();
    assert [t1, t2, t3][1..] == [t2, t3];
    rest := list.todos;
  }

  /** `pop` answers the last item and leaves the other two. */
  method PopScenario() returns (t1: Todo, t2: Todo, t3: Todo, popped: Option<Todo>, rest: seq<Todo>)
    ensures FixtureItems(t1, t2, t3)
    ensures popped == Some(t3) && rest == [t1, t2]
  {
    var list;
    list, t1, t2, t3 := Setup();
    popped := list.Pop();
    assert [t1, t2, t3][..2] == [t1, t2];
    rest := list.todos;
  }

  /** `done?` sees items marked through references held outside the list. */
  method DoneQueryScenario() returns (before: bool, after: bool)
    ensures !before && after
  {
    var list, t1, t2, t3 := Setup();
    before := list.IsDone();
    t1.MarkDone();
    t2.MarkDone();
    t3.MarkDone();
    after := list.IsDone();
  }

  /** `add("ok")` and `<< 5` raise a type error and change nothing. */
  method TypeErrorScenario() returns (t1: Todo, t2: Todo, t3: Todo, added: Outcome<ErrorKind>,
                                      appended: Result<TodoList, ErrorKind>, items: seq<Todo>)
    ensures FixtureItems(t1, t2, t3)
    ensures added == Fail(TypeError) && appended == Failure(TypeError)
    ensures items == [t1, t2, t3]
  {
    var list;
    list, t1, t2, t3 := Setup();
    added := list.Add(StringValue("ok"));
    appended := list.Append(IntegerValue(5));
    items := list.todos;
  }

  /** `<<` of an item already present appends it again. */
  method AppendDuplicateScenario() returns (t1: Todo, t2: Todo, t3: Todo, items: seq<Todo>)
    ensures FixtureItems(t1, t2, t3)
    ensures items == [t1, t2, t3, t3]
  {
    var list;
    list, t1, t2, t3 := Setup();
    var _ := list.Append(TodoValue(t3));
    items := list.todos;
  }

  /** `add` of an item already present appends it again. */
  method AddDuplicateScenario() returns (t1: Todo, t2: Todo, t3: Todo, items: seq<Todo>)
    ensures FixtureItems(t1, t2, t3)
    ensures items == [t1, t2, t3, t3]
  {
    var list;
    list, t1, t2, t3 := Setup();
    var _ := list.Add(TodoValue(t3));
    items := list.todos;
  }

  /** `item_at` rejects 4 and -4 and resolves 0 and -1. */
  method ItemAtScenario() returns (t1: Todo, t2: Todo, t3: Todo,
                                   past: Result<Todo, ErrorKind>, before: Result<Todo, ErrorKind>,
                                   atZero: Result<Todo, ErrorKind>, atMinusOne: Result<Todo, ErrorKind>)
    ensures FixtureItems(t1, t2, t3)
    ensures past == Failure(IndexError) && before == Failure(IndexError)
    ensures atZero == Success(t1) && atMinusOne == Success(t3)
  {
    var list;
    list, t1, t2, t3 := Setup();
    past, before := list.ItemAt(4), list.ItemAt(-4);
    atZero, atMinusOne := list.ItemAt(0), list.ItemAt(-1);
  }

  /** `mark_done_at` rejects 4 and -4; marking 0 and -1 leaves the middle open. */
  method MarkDoneAtScenario() returns (past: Outcome<ErrorKind>, before: Outcome<ErrorKind>,
                                       done1: bool, done2: bool, done3: bool)
    ensures past == Fail(IndexError) && before == Fail(IndexError)
    ensures done1 && !done2 && done3
  {
    var list, t1, t2, t3 := Setup();
    past := list.MarkDoneAt(4);
    before := list.MarkDoneAt(-4);
    var _ := list.MarkDoneAt(0);
    var _ := list.MarkDoneAt(-1);
    done1, done2, done3 := t1.done, t2.done, t3.done;
  }

  /** `mark_undone_at` after `done!`: unmarking 0 and -1 leaves the middle done. */
  method MarkUndoneAtScenario() returns (past: Outcome<ErrorKind>, before: Outcome<ErrorKind>,
                                         allDone: bool, done1: bool, done2: bool, done3: bool)
    ensures past == Fail(IndexError) && before == Fail(IndexError)
    ensures allDone && !done1 && done2 && !done3
  {
    var list, t1, t2, t3 := Setup();
    past := list.MarkUndoneAt(4);
    before := list.MarkUndoneAt(-4);
    list.Done();
    allDone := list.IsDone();
    var _ := list.MarkUndoneAt(0);
    var _ := list.MarkUndoneAt(-1);
    done1, done2, done3 := t1.done, t2.done, t3.done;
  }

  /** `done!` marks every item the test holds. */
  method DoneScenario() returns (done1: bool, done2: bool, done3: bool)
    ensures done1 && done2 && done3
  {
    var list, t1, t2, t3 := Setup();
    list.Done();
    done1, done2, done3 := t1.done, t2.done, t3.done;
  }

  /** `remove_at` rejects 4 and -4 and leaves the list as it was. */
  method RemoveAtOutOfRangeScenario() returns (t1: Todo, t2: Todo, t3: Todo, past: Result<Todo, ErrorKind>,
                                               before: Result<Todo, ErrorKind>, rest: seq<Todo>)
    ensures FixtureItems(t1, t2, t3)
    ensures past == Failure(IndexError) && before == Failure(IndexError)
    ensures rest == [t1, t2, t3]
  {
    var list;
    list, t1, t2, t3 := Setup();
    past := list.RemoveAt(4);
    before := list.RemoveAt(-4);
    rest := list.todos;
  }

  /** `remove_at(0)` then `remove_at(-1)` answer the first and last items
      and leave only the middle one. */
  method RemoveAtScenario() returns (t1: Todo, t2: Todo, t3: Todo, first: Result<Todo, ErrorKind>,
                                     last: Result<Todo, ErrorKind>, rest: seq<Todo>)
    ensures FixtureItems(t1, t2, t3)
    ensures first == Success(t1) && last == Success(t3) && rest == [t2]
  {
    var list;
    list, t1, t2, t3 := Setup();
    first := list.RemoveAt(0);
    assert list.todos == [t2, t3] by {
      assert Removed([t1, t2, t3], 0) == [t2, t3];
    }
    last := list.RemoveAt(-1);
    assert list.todos == [t2] by {
      assert Removed([t2, t3], 1) == [t2];
    }
    rest := list.todos;
  }

  /** The text of the fixture's three titles with the given done flags. */
  lemma FixtureText(d1: bool, d2: bool, d3: bool)
    ensures Render(Listing("Today's Todos", [Entry("Buy milk", d1), Entry("Clean room", d2), Entry("Go to gym", d3)]))
         == "---- Today's Todos ----" + "\n"
            + ItemLine(Entry("Buy milk", d1)) + "\n"
            + ItemLine(Entry("Clean room", d2)) + "\n"
            + ItemLine(Entry("Go to gym", d3))
  {
    RenderThree("Today's Todos", Entry("Buy milk", d1), Entry("Clean room", d2), Entry("Go to gym", d3));
    assert Header("Today's Todos") == "---- Today's Todos ----";
  }

  lemma OpenFixtureText()
    ensures Render(Listing("Today's Todos", [Entry("Buy milk", false), Entry("Clean room", false), Entry("Go to gym", false)]))
         == "---- Today's Todos ----" + "\n" + "[ ] Buy milk" + "\n" + "[ ] Clean room" + "\n" + "[ ] Go to gym"
  {
    FixtureText(false, false, false);
    assert ItemLine(Entry("Buy milk", false)) == "[ ] Buy milk";
    assert ItemLine(Entry("Clean room", false)) == "[ ] Clean room";
    assert ItemLine(Entry("Go to gym", false)) == "[ ] Go to gym";
  }

  lemma MiddleDoneFixtureText()
    ensures Render(Listing("Today's Todos", [Entry("Buy milk", false), Entry("Clean room", true), Entry("Go to gym", false)]))
         == "---- Today's Todos ----" + "\n" + "[ ] Buy milk" + "\n" + "[X] Clean room" + "\n" + "[ ] Go to gym"
  {
    FixtureText(false, true, false);
    assert ItemLine(Entry("Buy milk", false)) == "[ ] Buy milk";
    assert ItemLine(Entry("Clean room", true)) == "[X] Clean room";
    assert ItemLine(Entry("Go to gym", false)) == "[ ] Go to gym";
  }

  lemma DoneFixtureText()
    ensures Render(Listing("Today's Todos", [Entry("Buy milk", true), Entry("Clean room", true), Entry("Go to gym", true)]))
         == "---- Today's Todos ----" + "\n" + "[X] Buy milk" + "\n" + "[X] Clean room" + "\n" + "[X] Go to gym"
  {
    FixtureText(true, true, true);
    assert ItemLine(Entry("Buy milk", true)) == "[X] Buy milk";
    assert ItemLine(Entry("Clean room", true)) == "[X] Clean room";
    assert ItemLine(Entry("Go to gym", true)) == "[X] Go to gym";
  }

  /** `to_s` of the fixture: nothing done. */
  method ToStringScenario() returns (text: string)
    ensures text == "---- Today's Todos ----" + "\n" + "[ ] Buy milk" + "\n" + "[ ] Clean room" + "\n" + "[ ] Go to gym"
  {
    var list, t1, t2, t3 := Setup();
    text := list.ToString();
    ToStringOfThree(list, t1, t2, t3);
    OpenFixtureText();
  }

  /** `to_s` after `mark_done_at(1)`. */
  method ToStringOneDoneScenario() returns (text: string)
    ensures text == "---- Today's Todos ----" + "\n" + "[ ] Buy milk" + "\n" + "[X] Clean room" + "\n" + "[ ] Go to gym"
  {
    var list, t1, t2, t3 := Setup();
    var _ := list.MarkDoneAt(1);
    assert !t1.done && t2.done && !t3.done;
    text := list.ToString();
    ToStringOfThree(list, t1, t2, t3);
    MiddleDoneFixtureText();
  }

  /** `to_s` after `done!`. */
  method ToStringAllDoneScenario() returns (text: string)
    ensures text == "---- Today's Todos ----" + "\n" + "[X] Buy milk" + "\n" + "[X] Clean room" + "\n" + "[X] Go to gym"
  {
    var list, t1, t2, t3 := Setup();
    list.Done();
    assert t1 in list.todos && t2 in list.todos && t3 in list.todos;
    text := list.ToString();
    ToStringOfThree(list, t1, t2, t3);
    DoneFixtureText();
  }

  /** `each` visits the items in order and answers the list itself; the
      titles are what the test's block prints. */
  method EachScenario() returns (t1: Todo, t2: Todo, t3: Todo, same: bool, visited: seq<Todo>,
                                 printed: seq<string>)
    ensures FixtureItems(t1, t2, t3)
    ensures same && visited == [t1, t2, t3]
    ensures printed == ["Buy milk", "Clean room", "Go to gym"]
  {
    var list, r;
    list, t1, t2, t3 := Setup();
    r, visited := list.Each();
    same, printed := r == list, Titles(visited);
  }

  /** `select { |todo| todo.title < 'G' }` keeps the title and the first two items. */
  method SelectScenario() returns (t1: Todo, t2: Todo, t3: Todo, title: string, selected: seq<Todo>)
    ensures FixtureItems(t1, t2, t3)
    ensures title == "Today's Todos" && selected == [t1, t2]
  {
    var list;
    list, t1, t2, t3 := Setup();
    var before := (e: Entry) => e.title == [] || e.title[0] < 'G';
    var r := list.Select(before);
    FilterThree(t1, t2, t3, before);
    title, selected := r.title, r.todos;
  }

  /** `find_by_title` matches "Go to gym" exactly and finds no "Go to space". */
  method FindByTitleScenario() returns (t1: Todo, t2: Todo, t3: Todo, gym: Option<Todo>, space: Option<Todo>)
    ensures FixtureItems(t1, t2, t3)
    ensures gym == Some(t3) && space == None
  {
    var list;
    list, t1, t2, t3 := Setup();
    gym := list.FindByTitle("Go to gym");
    space := list.FindByTitle("Go to space");
  }

  /** `all_done` is empty while nothing is done. */
  method AllDoneEmptyScenario() returns (selected: seq<Todo>)
    ensures selected == []
  {
    var list, t1, t2, t3 := Setup();
    FilterThree(t1, t2, t3, IsDoneEntry);
    var r := list.AllDone();
    selected := r.todos;
  }

  /** Once the middle item is done, `all_done` renders like a new list
      holding only that item. */
  method AllDoneScenario() returns (selected: string, expected: string)
    ensures selected == expected
  {
    var list, t1, t2, t3 := Setup();
    t2.MarkDone();
    var other := new TodoList(list.title);
    var _ := other.Append(TodoValue(t2));
    FilterThree(t1, t2, t3, IsDoneEntry);
    var r := list.AllDone();
    assert r.todos == other.todos && r.title == other.title;
    selected, expected := r.ToString(), other.ToString();
  }

  /** Once the first two items are done, `all_not_done` renders like a new
      list holding only the third. */
  method AllNotDoneScenario() returns (selected: string, expected: string)
    ensures selected == expected
  {
    var list, t1, t2, t3 := Setup();
    t1.MarkDone();
    t2.MarkDone();
    var other := new TodoList(list.title);
    var _ := other.Append(TodoValue(t3));
    FilterThree(t1, t2, t3, IsOpenEntry);
    var r := list.AllNotDone();
    assert r.todos == other.todos && r.title == other.title;
    selected, expected := r.ToString(), other.ToString();
  }

  /** `all_not_done` is empty once every item is done. */
  method AllNotDoneEmptyScenario() returns (selected: seq<Todo>)
    ensures selected == []
  {
    var list, t1, t2, t3 := Setup();
    t1.MarkDone();
    t2.MarkDone();
    t3.MarkDone();
    FilterThree(t1, t2, t3, IsOpenEntry);
    var r := list.AllNotDone();
    selected := r.todos;
  }

  /** `mark_done` answers nil for an unknown title and marks a known one. */
  method MarkDoneScenario() returns (t1: Todo, t2: Todo, t3: Todo, space: Option<Todo>, gymDone: bool)
    ensures FixtureItems(t1, t2, t3)
    ensures space == None && gymDone
  {
    var list;
    list, t1, t2, t3 := Setup();
    space := list.MarkDone("Go to space");
    var _ := list.MarkDone("Go to gym");
    gymDone := t3.done;
  }

  /** `mark_all_done` and `mark_all_undone` answer the list itself and mutate it. */
  method MarkAllScenario() returns (sameDone: bool, allDone: bool, sameUndone: bool, anyDone: bool)
    ensures sameDone && allDone && sameUndone && !anyDone
  {
    var list, t1, t2, t3 := Setup();
    var r := list.MarkAllDone();
    sameDone, allDone := r == list, list.IsDone();
    list, t1, t2, t3 := Setup();
    t1.MarkDone();
    t2.MarkDone();
    t3.MarkDone();
    r := list.MarkAllUndone();
    sameUndone, anyDone := r == list, t1.done || t2.done || t3.done;
  }
}
