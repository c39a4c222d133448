/** The textual form of a to-do list: one line per item, `[X] title` or
    `[ ] title`, under a header line `---- title ----`, joined by newlines.
    Besides the renderers, this module holds their inverses (a line splitter
    and parsers), so that the rendering can be shown to lose nothing. */
module Text {
  import opened Wrappers

  /** The observable state of one to-do item: its title and its done flag. */
  datatype Entry = Entry(title: string, done: bool)

  /** The observable state of a whole list: its title and its items in order. */
  datatype Listing = Listing(title: string, entries: seq<Entry>)

  predicate NoNewline(s: string)
  {
    '\n' !in s
  }

  /** True when no line of the rendering of `l` can be broken by its own text. */
  predicate Printable(l: Listing)
  {
    NoNewline(l.title) && forall e :: e in l.entries ==> NoNewline(e.title)
  }

  /** The line of one item: a done mark, a space and the title. */
  function ItemLine(e: Entry): (line: string)
    ensures |line| == |e.title| + 4
    ensures ParseItemLine(line) == Some(e)
  {
    (if e.done then "[X] " else "[ ] ") + e.title
  }

  function ParseItemLine(line: string): Option<Entry>
  {
    if |line| >= 4 && line[..4] == "[X] " then Some(Entry(line[4..], true))
    else if |line| >= 4 && line[..4] == "[ ] " then Some(Entry(line[4..], false))
    else None
  }

  /** The first line of a list's rendering. */
  function Header(title: string): (line: string)
    ensures |line| == |title| + 10
    ensures ParseHeader(line) == Some(title)
  {
    "---- " + title + " ----"
  }

  function ParseHeader(line: string): Option<string>
  {
    if |line| >= 10 && line[..5] == "---- " && line[|line| - 5..] == " ----"
    then Some(line[5..|line| - 5])
    else None
  }

  /** The lines joined with a newline between neighbours and none at the end. */
  function Join(lines: seq<string>): string
  {
    if |lines| == 0 then ""
    else if |lines| == 1 then lines[0]
    else lines[0] + "\n" + Join(lines[1..])
  }

  /** Cuts `s` at every newline; the pieces hold no newline and join back to `s`. */
  function Split(s: string): (lines: seq<string>)
    ensures |lines| >= 1
    ensures forall l :: l in lines ==> NoNewline(l)
    ensures Join(lines) == s
  {
    if s == [] then [""]
    else
      var rest := Split(s[1..]);
      if s[0] == '\n' then [""] + rest
      else
        assert rest[0] in rest && NoNewline(rest[0]);
        assert forall l :: l in rest[1..] ==> l in rest;
        [[s[0]] + rest[0]] + rest[1..]
  }

  function ItemLines(entries: seq<Entry>): seq<string>
  {
    seq(|entries|, i requires 0 <= i < |entries| => ItemLine(entries[i]))
  }

  /** The rendering of a whole list (Ruby's `TodoList#to_s`). */
  function Render(l: Listing): string
  {
    Join([Header(l.title)] + ItemLines(l.entries))
  }

  function ParseItemLines(lines: seq<string>): Option<seq<Entry>>
  {
    if lines == [] then Some([])
    else
      match (ParseItemLine(lines[0]), ParseItemLines(lines[1..]))
      case (Some(e), Some(es)) => Some([e] + es)
      case _ => None
  }

  /** Reads a rendering back into the list it shows. */
  function ParseListing(s: string): Option<Listing>
  {
    var lines := Split(s);
    match (ParseHeader(lines[0]), ParseItemLines(lines[1..]))
    case (Some(title), Some(entries)) => Some(Listing(title, entries))
    case _ => None
  }

  /** A newline-free prefix stays glued to the first piece of what follows it. */
  lemma {:induction false} SplitPrefix(l: string, s: string)
    requires NoNewline(l)
    ensures Split(l + s) == [l + Split(s)[0]] + Split(s)[1..]
  {
    if l != [] {
      assert (l + s)[1..] == l[1..] + s;
      SplitPrefix(l[1..], s);
      assert [l[0]] + (l[1..] + Split(s)[0]) == l + Split(s)[0];
    } else {
      assert l + s == s;
      assert l + Split(s)[0] == Split(s)[0];
    }
  }

  /** Splitting undoes joining, provided no line holds a newline. */
  lemma {:induction false} SplitJoin(lines: seq<string>)
    requires |lines| >= 1
    requires forall l :: l in lines ==> NoNewline(l)
    ensures Split(Join(lines)) == lines
  {
    if |lines| == 1 {
      SplitPrefix(lines[0], "");
      assert lines[0] + "" == lines[0];
    } else {
      var rest := Join(lines[1..]);
      SplitJoin(lines[1..]);
      assert Split("\n" + rest) == [""] + lines[1..] by {
        assert ("\n" + rest)[1..] == rest;
      }
      assert Join(lines) == lines[0] + ("\n" + rest);
      SplitPrefix(lines[0], "\n" + rest);
      assert lines[0] + "" == lines[0];
      assert lines == [lines[0]] + lines[1..];
    }
  }

  lemma {:induction false} ParseItemLinesOf(entries: seq<Entry>)
    ensures ParseItemLines(ItemLines(entries)) == Some(entries)
  {
    if entries != [] {
      ParseItemLinesOf(entries[1..]);
      assert ItemLines(entries)[1..] == ItemLines(entries[1..]);
      assert [entries[0]] + entries[1..] == entries;
    }
  }

  /** The rendering of a printable list reads back as that very list: the
      header carries the title and each line carries one item, in order. */
  lemma RenderParses(l: Listing)
    ensures Printable(l) ==> ParseListing(Render(l)) == Some(l)
  {
    if Printable(l) {
      var lines := [Header(l.title)] + ItemLines(l.entries);
      forall line | line in lines
        ensures NoNewline(line)
      {
        if line != Header(l.title) {
          var i :| 0 <= i < |l.entries| && line == ItemLine(l.entries[i]);
          assert l.entries[i] in l.entries;
        }
      }
      SplitJoin(lines);
      assert lines[1..] == ItemLines(l.entries);
      ParseItemLinesOf(l.entries);
    }
  }

  lemma HeaderParsed(line: string, title: string)
    requires ParseHeader(line) == Some(title)
    ensures line == Header(title)
  {
  }

  lemma ItemLineParsed(line: string, e: Entry)
    requires ParseItemLine(line) == Some(e)
    ensures line == ItemLine(e)
  {
  }

  lemma {:induction false} ItemLinesParsed(lines: seq<string>, entries: seq<Entry>)
    requires ParseItemLines(lines) == Some(entries)
    ensures lines == ItemLines(entries)
  {
    if lines != [] {
      var e := ParseItemLine(lines[0]).value;
      var es := ParseItemLines(lines[1..]).value;
      ItemLineParsed(lines[0], e);
      ItemLinesParsed(lines[1..], es);
      assert entries == [e] + es;
      assert lines == [lines[0]] + lines[1..];
    }
  }

  /** Only the rendering of a list reads back as that list: together with
      RenderParses, the text of a printable list is fixed character for
      character by its title and items. */
  lemma ParseUnique(s: string, l: Listing)
    requires ParseListing(s) == Some(l)
    ensures s == Render(l)
  {
    var lines := Split(s);
    HeaderParsed(lines[0], l.title);
    ItemLinesParsed(lines[1..], l.entries);
    assert lines == [lines[0]] + lines[1..];
  }
}
