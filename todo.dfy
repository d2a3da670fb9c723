/** Todo items: who wrote them, what they say, when they were added and
    whether they are done, kept in their own database. */
module Todo {
  import opened Wrappers
  import opened Text
  import opened Maps
  import Reminders

  datatype TodoItem = TodoItem(id: string, userId: string, content: string, createdAt: int, completedAt: Option<int>)

  /** `get_db_location`: `TODO_DB_LOCATION` when set, otherwise the general
      data directory (`DB_LOCATION`, or "./data") followed by "/todo". */
  function GetDbLocation(todoDbLocationEnv: Option<string>, dbLocationEnv: Option<string>): (r: string)
    ensures todoDbLocationEnv.Some? ==> r == todoDbLocationEnv.value
    ensures todoDbLocationEnv.None? ==> r == Reminders.GetDbLocation(dbLocationEnv) + "/todo"
    ensures todoDbLocationEnv.None? && dbLocationEnv.None? ==> r == "./data/todo"
  {
    match todoDbLocationEnv
    case Some(path) => path
    case None => Reminders.GetDbLocation(dbLocationEnv) + "/todo"
  }

  /** The sort key of the listings. */
  function CreatedAt(item: TodoItem): int { item.createdAt }

  predicate IsOpenFor(item: TodoItem, userId: string) {
    item.userId == userId && item.completedAt.None?
  }

  /** The keys of a user's open items. */
  function OpenKeys(m: map<string, TodoItem>, userId: string): (ks: set<string>)
    ensures ks <= m.Keys
  {
    set k | k in m && IsOpenFor(m[k], userId)
  }

  /** A user's open items, counted. */
  ghost function OpenValues(m: map<string, TodoItem>, userId: string): multiset<TodoItem> {
    ValuesOf(m, OpenKeys(m, userId))
  }

  /** Every stored item carries its own key as its id. */
  ghost predicate KeyedById(m: map<string, TodoItem>) {
    forall k :: k in m ==> m[k].id == k
  }

  /** "{n}) {content}\n" for each item, numbered from `first`. */
  function NumberedLines(items: seq<TodoItem>, first: nat): (r: string)
    ensures items != [] ==> r != [] && IsAsciiDigit(r[0])
    decreases |items|
  {
    if items == [] then []
    else NatToString(first) + ") " + items[0].content + "\n" + NumberedLines(items[1..], first + 1)
  }

  /** The k-th item appears as its own numbered line. */
  lemma {:induction false} NumberedLineOccurs(items: seq<TodoItem>, first: nat, k: nat)
    requires k < |items|
    ensures Contains(NumberedLines(items, first), NatToString(first + k) + ") " + items[k].content + "\n")
    decreases |items|
  {
    var line := NatToString(first) + ") " + items[0].content + "\n";
    var rest := NumberedLines(items[1..], first + 1);
    assert NumberedLines(items, first) == line + rest;
    if k == 0 {
      assert StartsWith(line, line);
      ContainsInPrefix(line, rest, line);
    } else {
      var target := NatToString(first + k) + ") " + items[k].content + "\n";
      NumberedLineOccurs(items[1..], first + 1, k - 1);
      assert first + 1 + (k - 1) == first + k;
      assert items[1..][k - 1] == items[k];
      assert Contains(rest, target);
      ContainsInSuffix(line, rest, target);
    }
  }

  /** Trimming the end of a text that holds something other than white space
      after a header leaves the header alone. */
  lemma {:induction false} TrimEndAfterHeader(header: string, lines: string)
    requires lines != [] && !IsWhitespace(lines[0])
    ensures TrimEnd(header + lines) == header + TrimEnd(lines)
    decreases |lines|
  {
    var s := header + lines;
    if IsWhitespace(s[|s| - 1]) {
      assert |lines| > 1;
      assert s[..|s| - 1] == header + lines[..|lines| - 1];
      TrimEndAfterHeader(header, lines[..|lines| - 1]);
    }
  }

  /** A digit is not white space. */
  lemma DigitIsNotWhitespace(c: char)
    requires IsAsciiDigit(c)
    ensures !IsWhitespace(c)
  {
  }

  /** The listing text for a header over some items: the header, then the
      numbered lines, with the trailing white space trimmed. */
  function Listing(header: string, items: seq<TodoItem>): (r: string)
    requires items != []
    ensures r == header + TrimEnd(NumberedLines(items, 1))
  {
    var lines := NumberedLines(items, 1);
    DigitIsNotWhitespace(lines[0]);
    TrimEndAfterHeader(header, lines);
    TrimEnd(header + lines)
  }

  /** Numbering one more item at the end appends its line. */
  lemma {:induction false} NumberedLinesSnoc(items: seq<TodoItem>, item: TodoItem, first: nat)
    ensures NumberedLines(items + [item], first)
            == NumberedLines(items, first) + (NatToString(first + |items|) + ") " + item.content + "\n")
    decreases |items|
  {
    if items == [] {
      assert NumberedLines([item], first) == NatToString(first) + ") " + item.content + "\n" + NumberedLines([], first + 1);
    } else {
      assert (items + [item])[1..] == items[1..] + [item];
      NumberedLinesSnoc(items[1..], item, first + 1);
    }
  }

  /** The listing as the handlers build it: the header, one pushed line per
      item, then the end trimmed. */
  method BuildListing(header: string, items: seq<TodoItem>) returns (text: string)
    requires items != []
    ensures text == Listing(header, items)
  {
    var body := header;
    for idx := 0 to |items|
      invariant body == header + NumberedLines(items[..idx], 1)
    {
      NumberedLinesSnoc(items[..idx], items[idx], 1);
      assert items[..idx + 1] == items[..idx] + [items[idx]];
      body := body + (NatToString(idx + 1) + ") " + items[idx].content + "\n");
    }
    assert items[..|items|] == items;
    text := TrimEnd(body);
  }

  class TodoDb {
    var items: map<string, TodoItem>

    constructor ()
      ensures items == map[]
    {
      items := map[];
    }

    ghost predicate IdsMatchKeys()
      reads this
    {
      KeyedById(items)
    }

    /** `create_todo`: one new open item under the fresh id, which is
        returned when the save succeeds; a failed save keeps the insert. */
    method CreateTodo(userId: string, content: string, freshId: string, now: int, saveOk: bool)
      returns (r: Result<string, Reminders.DbError>)
      modifies this
      ensures items == old(items)[freshId := TodoItem(freshId, userId, content, now, None)]
      ensures saveOk ==> r == Ok(freshId)
      ensures !saveOk ==> r.Err?
      ensures old(IdsMatchKeys()) ==> IdsMatchKeys()
    {
      items := items[freshId := TodoItem(freshId, userId, content, now, None)];
      if !saveOk {
        return Err(Reminders.SaveFailed);
      }
      r := Ok(freshId);
    }
  }
}
