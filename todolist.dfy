/** A titled, insertion-ordered, mutable list of references to to-do items.
    Positional operations take Ruby-style indices (negative ones count from
    the end) and fail with an index error outside `[-size, size)`; adding a
    value that is not an item fails with a type error. */
module TodoLists {
  import opened Wrappers
  import opened Text
  import opened Todos

  /** The two failures the list raises. */
  datatype ErrorKind = TypeError | IndexError

  /** What a caller may hand to `add` / `<<`: an item, or any other value
      (the string "ok" and the integer 5 are the ones the tests try; every
      other kind of value is `OtherValue`). */
  datatype Value = TodoValue(todo: Todo) | StringValue(s: string) | IntegerValue(i: int) | OtherValue

  /** Resolves index `i` into a list of `n` elements: defined exactly on
      `[-n, n)`, and then the unique position below `n` congruent to `i`
      modulo `n` (so -1 is the last element and -n the first). */
  function Normalize(i: int, n: nat): (r: Option<nat>)
    ensures r.Some? <==> -(n as int) <= i < n
    ensures r.Some? ==> r.value < n && r.value % n == i % n
  {
    if 0 <= i < n then Some(i)
    else if -(n as int) <= i < 0 then Some(n + i)
    else None
  }

  /** `s` without its element at position `k`; the others keep their order. */
  function Removed<T>(s: seq<T>, k: nat): (r: seq<T>)
    requires k < |s|
    ensures |r| == |s| - 1
    ensures forall j :: 0 <= j < k ==> r[j] == s[j]
    ensures forall j :: k <= j < |r| ==> r[j] == s[j + 1]
    ensures multiset(r) + multiset{s[k]} == multiset(s)
  {
    assert s == s[..k] + [s[k]] + s[k + 1..];
    s[..k] + s[k + 1..]
  }

  /** The observable states of the items, in list order. */
  function Entries(ts: seq<Todo>): (es: seq<Entry>)
    reads ts
    ensures |es| == |ts|
    ensures forall i :: 0 <= i < |ts| ==> es[i] == ts[i].View()
  {
    if ts == [] then [] else [ts[0].View()] + Entries(ts[1..])
  }

  /** Whether every item is done (`all?(&:done?)`); true of no items. */
  function EveryDone(ts: seq<Todo>): (b: bool)
    reads ts
    ensures b <==> forall i :: 0 <= i < |ts| ==> ts[i].done
  {
    ts == [] || (ts[0].done && EveryDone(ts[1..]))
  }

  /** The items whose state satisfies `p`, in their original order. */
  function Filter(ts: seq<Todo>, p: Entry -> bool): (r: seq<Todo>)
    reads ts
    ensures |r| <= |ts|
    ensures forall t :: t in r ==> t in ts && p(t.View())
    ensures forall t :: t in ts && p(t.View()) ==> t in r
  {
    if ts == [] then []
    else
      var rest := Filter(ts[1..], p);
      assert ts == [ts[0]] + ts[1..];
      if p(ts[0].View()) then [ts[0]] + rest else rest
  }

  /** Position of the first item titled exactly `title`, if any. */
  function FindIndex(ts: seq<Todo>, title: string): (r: Option<nat>)
    ensures r.Some? ==> r.value < |ts| && ts[r.value].title == title
    ensures r.Some? ==> forall j :: 0 <= j < r.value ==> ts[j].title != title
    ensures r.None? ==> forall j :: 0 <= j < |ts| ==> ts[j].title != title
  {
    if ts == [] then None
    else if ts[0].title == title then Some(0)
    else match FindIndex(ts[1..], title)
      case None => None
      case Some(k) => Some(k + 1)
  }

  predicate IsDoneEntry(e: Entry)
  {
    e.done
  }

  predicate IsOpenEntry(e: Entry)
  {
    !e.done
  }

  /** Filtering distributes over concatenation: it keeps the original order. */
  lemma {:induction false} FilterAppend(a: seq<Todo>, b: seq<Todo>, p: Entry -> bool)
    ensures Filter(a + b, p) == Filter(a, p) + Filter(b, p)
  {
    if a != [] {
      assert (a + b)[1..] == a[1..] + b;
      FilterAppend(a[1..], b, p);
    } else {
      assert a + b == b;
    }
  }

  /** Filtering keeps every occurrence of a selected item and none of the others. */
  lemma {:induction false} FilterCount(ts: seq<Todo>, p: Entry -> bool, t: Todo)
    ensures multiset(Filter(ts, p))[t] == if p(t.View()) then multiset(ts)[t] else 0
  {
    if ts != [] {
      assert ts == [ts[0]] + ts[1..];
      FilterCount(ts[1..], p, t);
    }
  }

  /** Every item is selected by exactly one of `all_done` and `all_not_done`. */
  lemma {:induction false} DoneAndOpenPartition(ts: seq<Todo>)
    ensures multiset(Filter(ts, IsDoneEntry)) + multiset(Filter(ts, IsOpenEntry)) == multiset(ts)
  {
    if ts != [] {
      DoneAndOpenPartition(ts[1..]);
      assert ts == [ts[0]] + ts[1..];
    }
  }

  /** A list is done exactly when `all_not_done` is empty, and exactly when
      `all_done` is the whole list. */
  lemma {:induction false} DoneIffNothingOpen(ts: seq<Todo>)
    ensures EveryDone(ts) <==> Filter(ts, IsOpenEntry) == []
    ensures EveryDone(ts) <==> Filter(ts, IsDoneEntry) == ts
  {
    if ts != [] {
      DoneIffNothingOpen(ts[1..]);
      assert ts[0] in ts;
      if !ts[0].done {
        assert |Filter(ts, IsDoneEntry)| <= |ts[1..]|;
      }
    }
  }

  class TodoList {
    const title: string
    var todos: seq<Todo>

    constructor (title: string)
      ensures this.title == title && todos == []
    {
      this.title := title;
      todos := [];
    }

    /** `add`: appends an item at the end (duplicates allowed); any other
        value raises a type error and leaves the list as it was. */
    method Add(v: Value) returns (r: Outcome<ErrorKind>)
      modifies this
      ensures r == if v.TodoValue? then Pass else Fail(TypeError)
      ensures todos == if v.TodoValue? then old(todos) + [v.todo] else old(todos)
    {
      if v.TodoValue? {
        todos := todos + [v.todo];
        r := Pass;
      } else {
        r := Fail(TypeError);
      }
    }

    /** `<<`: `add`, answering the list itself so calls can be chained. */
    method Append(v: Value) returns (r: Result<TodoList, ErrorKind>)
      modifies this
      ensures r == if v.TodoValue? then Success(this) else Failure(TypeError)
      ensures todos == if v.TodoValue? then old(todos) + [v.todo] else old(todos)
    {
      var added := Add(v);
      r := if added.Pass? then Success(this) else Failure(TypeError);
    }

    /** `item_at`: the item at a possibly negative index, or an index error. */
    function ItemAt(i: int): (r: Result<Todo, ErrorKind>)
      reads this
      ensures r.Success? <==> -|todos| <= i < |todos|
      ensures r.Failure? ==> r.error == IndexError
      ensures r.Success? ==> r.value == todos[Normalize(i, |todos|).value]
    {
      match Normalize(i, |todos|)
      case Some(k) => Success(todos[k])
      case None => Failure(IndexError)
    }

    /** `first`: the item at index 0; absent on an empty list. */
    function First(): (r: Option<Todo>)
      reads this
      ensures r == ItemAt(0).ToOption()
    {
      if todos == [] then None else Some(todos[0])
    }

    /** `last`: the item at index -1; absent on an empty list. */
    function Last(): (r: Option<Todo>)
      reads this
      ensures r == ItemAt(-1).ToOption()
    {
      if todos == [] then None else Some(todos[|todos| - 1])
    }

    /** `shift`: removes and answers the first item. */
    method Shift() returns (r: Option<Todo>)
      modifies this
      ensures r == old(First())
      ensures todos == if old(todos) == [] then [] else Removed(old(todos), 0)
    {
      if todos == [] {
        r := None;
      } else {
        r := Some(todos[0]);
        todos := todos[1..];
      }
    }

    /** `pop`: removes and answers the last item. */
    method Pop() returns (r: Option<Todo>)
      modifies this
      ensures r == old(Last())
      ensures todos == if old(todos) == [] then [] else Removed(old(todos), |old(todos)| - 1)
    {
      if todos == [] {
        r := None;
      } else {
        r := Some(todos[|todos| - 1]);
        todos := todos[..|todos| - 1];
      }
    }

    /** `remove_at`: removes and answers the item at a possibly negative index. */
    method RemoveAt(i: int) returns (r: Result<Todo, ErrorKind>)
      modifies this
      ensures r == old(ItemAt(i))
      ensures r.Success? ==> todos == Removed(old(todos), Normalize(i, |old(todos)|).value)
      ensures r.Failure? ==> todos == old(todos)
    {
      match Normalize(i, |todos|)
      case None =>
        r := Failure(IndexError);
      case Some(k) =>
        r := Success(todos[k]);
        todos := Removed(todos, k);
    }

    /** `mark_done_at`: marks the item at a possibly negative index done;
        no other item changes, nor does the order. */
    method MarkDoneAt(i: int) returns (r: Outcome<ErrorKind>)
      modifies todos
      ensures todos == old(todos)
      ensures r == if ItemAt(i).Success? then Pass else Fail(IndexError)
      ensures ItemAt(i).Success? ==> ItemAt(i).value.done
      ensures forall t :: t in todos && (r.Fail? || t != ItemAt(i).value) ==> t.done == old(t.done)
    {
      match Normalize(i, |todos|)
      case None =>
        r := Fail(IndexError);
      case Some(k) =>
        todos[k].MarkDone();
        r := Pass;
    }

    /** `mark_undone_at`: marks the item at a possibly negative index not
        done; no other item changes, nor does the order. */
    method MarkUndoneAt(i: int) returns (r: Outcome<ErrorKind>)
      modifies todos
      ensures todos == old(todos)
      ensures r == if ItemAt(i).Success? then Pass else Fail(IndexError)
      ensures ItemAt(i).Success? ==> !ItemAt(i).value.done
      ensures forall t :: t in todos && (r.Fail? || t != ItemAt(i).value) ==> t.done == old(t.done)
    {
      match Normalize(i, |todos|)
      case None =>
        r := Fail(IndexError);
      case Some(k) =>
        todos[k].MarkUndone();
        r := Pass;
    }

    /** `done?`: every item is done (vacuously so for an empty list). */
    function IsDone(): (b: bool)
      reads this, todos
      ensures b <==> forall t :: t in todos ==> t.done
    {
      EveryDone(todos)
    }

    /** `done!`: marks every item done, keeping the order. */
    method Done()
      modifies todos
      ensures todos == old(todos)
      ensures forall t :: t in todos ==> t.done
    {
      var i := 0;
      while i < |todos|
        invariant 0 <= i <= |todos|
        invariant forall j :: 0 <= j < i ==> todos[j].done
      {
        todos[i].MarkDone();
        i := i + 1;
      }
    }

    /** `mark_all_done`: `done!`, answering the list itself. */
    method MarkAllDone() returns (r: TodoList)
      modifies todos
      ensures r == this && todos == old(todos)
      ensures forall t :: t in todos ==> t.done
    {
      Done();
      r := this;
    }

    /** `mark_all_undone`: marks every item not done, keeping the order, and
        answers the list itself. */
    method MarkAllUndone() returns (r: TodoList)
      modifies todos
      ensures r == this && todos == old(todos)
      ensures forall t :: t in todos ==> !t.done
    {
      var i := 0;
      while i < |todos|
        invariant 0 <= i <= |todos|
        invariant forall j :: 0 <= j < i ==> !todos[j].done
      {
        todos[i].MarkUndone();
        i := i + 1;
      }
      r := this;
    }

    /** `each` with a block: visits the items in order and answers the list. */
    method Each() returns (r: TodoList, visited: seq<Todo>)
      ensures r == this && visited == todos
    {
      visited := [];
      var i := 0;
      while i < |todos|
        invariant 0 <= i <= |todos|
        invariant visited == todos[..i]
      {
        visited := visited + [todos[i]];
        i := i + 1;
      }
      r := this;
    }

    /** `select`: a new list with the same title holding, in order, the
        items whose state satisfies `p`; the receiver is untouched. */
    method Select(p: Entry -> bool) returns (r: TodoList)
      ensures fresh(r) && r.title == title && r.todos == Filter(todos, p)
    {
      r := new TodoList(title);
      r.todos := Filter(todos, p);
    }

    /** `all_done`: `select(&:done?)`. */
    method AllDone() returns (r: TodoList)
      ensures fresh(r) && r.title == title && r.todos == Filter(todos, IsDoneEntry)
    {
      r := Select(IsDoneEntry);
    }

    /** `all_not_done`: `select { |todo| !todo.done? }`. */
    method AllNotDone() returns (r: TodoList)
      ensures fresh(r) && r.title == title && r.todos == Filter(todos, IsOpenEntry)
    {
      r := Select(IsOpenEntry);
    }

    /** `find_by_title`: the first item whose title equals `t`, else absent. */
    function FindByTitle(t: string): (r: Option<Todo>)
      reads this
      ensures r.None? <==> forall u :: u in todos ==> u.title != t
      ensures r.Some? ==> exists k :: 0 <= k < |todos| && todos[k] == r.value
                            && r.value.title == t
                            && forall j :: 0 <= j < k ==> todos[j].title != t
    {
      match FindIndex(todos, t)
      case None => None
      case Some(k) => Some(todos[k])
    }

    /** `mark_done(title)`: marks the first item titled `t` done and answers
        it; answers nil when no title matches. No other item changes. */
    method MarkDone(t: string) returns (r: Option<Todo>)
      modifies todos
      ensures todos == old(todos)
      ensures r == FindByTitle(t)
      ensures r.Some? ==> r.value.done
      ensures forall u :: u in todos && (r.None? || u != r.value) ==> u.done == old(u.done)
    {
      r := FindByTitle(t);
      if r.Some? {
        r.value.MarkDone();
      }
    }

    /** `to_s`: the header line, then one line per item in order. A list
        whose titles hold no newline reads back from its text unchanged. */
    function ToString(): (s: string)
      reads this, todos
      ensures Printable(Listing(title, Entries(todos))) ==>
                ParseListing(s) == Some(Listing(title, Entries(todos)))
    {
      var l := Listing(title, Entries(todos));
      RenderParses(l);
      Render(l)
    }
  }
}
