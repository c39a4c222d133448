/** A single to-do item: a fixed title and a done flag that starts false.
    Items are objects: a list holds references to them, so marking an item
    done through the list is seen by everyone holding the same item. */
module Todos {
  import opened Text

  class Todo {
    const title: string
    var done: bool

    constructor (title: string)
      ensures this.title == title && !done
    {
      this.title := title;
      done := false;
    }

    /** `done!`: idempotent. */
    method MarkDone()
      modifies this
      ensures done
    {
      done := true;
    }

    /** `undone!`: idempotent. */
    method MarkUndone()
      modifies this
      ensures !done
    {
      done := false;
    }

    /** The item's observable state; `done?` is its `done` part. */
    function View(): Entry
      reads this
    {
      Entry(title, done)
    }

    /** `to_s`: the done mark, then the title. */
    function ToString(): (s: string)
      reads this
      ensures |s| == |title| + 4 && s[4..] == title
      ensures s[..4] == (if done then "[X] " else "[ ] ")
    {
      ItemLine(View())
    }
  }
}
