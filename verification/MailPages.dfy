/**
 * Listing Winston's mailbox page by page: each page starts after the last message
 * of the one before, by date and id.
 *
 * Dates are whole milliseconds; ids are compared as the database does.
 */
module MailPages {
  import opened Wrappers

  datatype Key = Key(date: int, id: nat)

  /** Newest first, and by id where the dates are equal. */
  predicate Before(a: Key, b: Key) {
    a.date > b.date || (a.date == b.date && a.id > b.id)
  }

  /** The dates fall, and among messages of one date the ids fall. */
  ghost predicate Descending(rows: seq<Key>) {
    forall i, j :: 0 <= i < j < |rows| ==>
      rows[j].date < rows[i].date || (rows[j].date == rows[i].date && rows[j].id < rows[i].id)
  }

  // ---------------------------------------------------------------- Cursors

  /** How a date and an id are written: an ISO instant has no bar in it, and reads back. */
  datatype Text = Text(iso: int -> string, parse: string -> Option<int>, idText: nat -> string, idOf: string -> Option<nat>)

  ghost predicate Faithful(t: Text) {
    && (forall date: int :: '|' !in t.iso(date) && t.parse(t.iso(date)) == Some(date))
    && (forall id: nat :: t.idOf(t.idText(id)) == Some(id))
  }

  function Split(text: string): seq<string> {
    if text == "" then [""]
    else if text[0] == '|' then [""] + Split(text[1..])
    else
      var rest := Split(text[1..]);
      if rest == [] then [] else [[text[0]] + rest[0]] + rest[1..]
  }

  function EncodeCursor(t: Text, row: Key): string {
    t.iso(row.date) + "|" + t.idText(row.id)
  }

  /** None where the source throws. */
  function DecodeCursor(t: Text, cursor: string): Option<Key> {
    var parts := Split(cursor);
    if |parts| < 2 || parts[1] == "" then None
    else
      match (t.parse(parts[0]), t.idOf(parts[1]))
      case (Some(at), Some(id)) => Some(Key(at, id))
      case _ => None
  }

  lemma {:induction false} SplitHead(a: string, b: string)
    requires '|' !in a
    ensures Split(a + "|" + b) == [a] + Split(b)
    decreases |a|
  {
    var text := a + "|" + b;
    if a == "" {
      assert text[1..] == b;
    } else {
      assert text[1..] == a[1..] + "|" + b;
      SplitHead(a[1..], b);
      assert [a[0]] + a[1..] == a;
    }
  }

  lemma {:induction false} SplitWhole(text: string)
    ensures Split(text) != [] && (Split(text)[0] == text <==> '|' !in text)
    decreases |text|
  {
    if text != "" {
      SplitWhole(text[1..]);
      assert text == [text[0]] + text[1..];
      if text[0] != '|' && Split(text)[0] == text {
        assert Split(text)[0][1..] == Split(text[1..])[0] && text[1..] == Split(text)[0][1..];
      }
    }
  }

  /** A cursor comes back as the place it was made from, as long as the id's text has no bar and is not empty. */
  lemma CursorsReadBack(t: Text, row: Key)
    requires Faithful(t) && t.idText(row.id) != "" && '|' !in t.idText(row.id)
    ensures DecodeCursor(t, EncodeCursor(t, row)) == Some(row)
  {
    var a, b := t.iso(row.date), t.idText(row.id);
    assert '|' !in a;
    SplitHead(a, b);
    SplitWhole(b);
    assert ([a] + Split(b))[1] == Split(b)[0];
  }

  // ---------------------------------------------------------------- One page

  datatype Page = Page(items: seq<Key>, cursor: Option<string>)

  /** The rows of `rows`, in their order, that come after the cursor's place. */
  function After(rows: seq<Key>, place: Option<Key>): seq<Key> {
    if rows == [] then []
    else (if place.None? || Before(place.value, rows[0]) then [rows[0]] else []) + After(rows[1..], place)
  }

  function Take(rows: seq<Key>, n: nat): seq<Key> {
    if |rows| <= n then rows else rows[..n]
  }

  /**
   * One page of the matching messages, `rows`, which the query yields newest first.
   * One row more than the page is asked for, to know whether there is more.
   */
  function List(t: Text, rows: seq<Key>, limit: nat, cursor: Option<string>): Option<Page> {
    var place := if cursor.None? || cursor.value == "" then Some(None)
                 else match DecodeCursor(t, cursor.value) case None => None case Some(key) => Some(Some(key));
    match place
    case None => None
    case Some(at) =>
      var found := Take(After(rows, at), limit + 1);
      var page := Take(found, limit);
      Some(Page(page, if |found| > limit && page != [] then Some(EncodeCursor(t, page[|page| - 1])) else None))
  }

  /** What follows the k-th row is what follows its key. */
  lemma {:induction false} AfterIsRest(rows: seq<Key>, k: nat)
    requires Descending(rows) && k < |rows|
    ensures After(rows, Some(rows[k])) == rows[k + 1..]
    decreases k
  {
    assert Descending(rows[1..]);
    assert forall j :: 0 <= j < |rows| - 1 ==> rows[1..][j] == rows[j + 1];
    if k == 0 {
      AllAfter(rows[1..], Some(rows[0]));
    } else {
      assert rows[k] == rows[1..][k - 1] && Before(rows[0], rows[k]);
      AfterIsRest(rows[1..], k - 1);
      assert rows[1..][k..] == rows[k + 1..];
    }
  }

  lemma {:induction false} AllAfter(rows: seq<Key>, place: Option<Key>)
    requires forall k :: 0 <= k < |rows| ==> place.None? || Before(place.value, rows[k])
    ensures After(rows, place) == rows
    decreases |rows|
  {
    if rows == [] {
    } else {
      AllAfter(rows[1..], place);
      assert rows == [rows[0]] + rows[1..];
    }
  }

  // ---------------------------------------------------------------- All the pages

  /** The pages a caller sees that follows every cursor, at most `fuel` of them. */
  function Follow(t: Text, rows: seq<Key>, limit: nat, cursor: Option<string>, fuel: nat): Option<seq<Page>>
    decreases fuel
  {
    if fuel == 0 then None
    else
      match List(t, rows, limit, cursor)
      case None => None
      case Some(page) =>
        if page.cursor.None? then Some([page])
        else
          match Follow(t, rows, limit, page.cursor, fuel - 1)
          case None => None
          case Some(more) => Some([page] + more)
  }

  function Items(pages: seq<Page>): seq<Key> {
    if pages == [] then [] else pages[0].items + Items(pages[1..])
  }

  ghost predicate GoodIds(t: Text, rows: seq<Key>) {
    Faithful(t) && forall k :: 0 <= k < |rows| ==> t.idText(rows[k].id) != "" && '|' !in t.idText(rows[k].id)
  }

  function PlaceAfter(t: Text, rows: seq<Key>, n: nat): Option<string>
    requires n <= |rows|
  {
    if n == 0 then None else Some(EncodeCursor(t, rows[n - 1]))
  }

  /** What a cursor made after the first n rows selects. */
  lemma SelectsRest(t: Text, rows: seq<Key>, n: nat)
    requires Descending(rows) && GoodIds(t, rows) && n <= |rows|
    ensures n == 0 ==> After(rows, None) == rows[n..]
    ensures n > 0 ==> EncodeCursor(t, rows[n - 1]) != ""
    ensures n > 0 ==> DecodeCursor(t, EncodeCursor(t, rows[n - 1])) == Some(rows[n - 1]) && After(rows, Some(rows[n - 1])) == rows[n..]
  {
    hide Descending, After, EncodeCursor, DecodeCursor;
    if n == 0 {
      AllAfter(rows, None);
    } else {
      CursorsReadBack(t, rows[n - 1]);
      CursorIsText(t, rows[n - 1]);
      AfterIsRest(rows, n - 1);
    }
  }

  lemma TakePage(rest: seq<Key>, limit: nat)
    ensures var found := Take(rest, limit + 1);
            Take(found, limit) == Take(rest, limit) && (|found| > limit <==> |rest| > limit)
  {
  }

  /** The page after the first n rows: the next rows, and a cursor exactly when there are more. */
  lemma PageAt(t: Text, rows: seq<Key>, limit: nat, n: nat)
    requires Descending(rows) && GoodIds(t, rows) && limit >= 1 && n <= |rows|
    ensures List(t, rows, limit, PlaceAfter(t, rows, n))
         == Some(if n + limit < |rows| then Page(rows[n..n + limit], PlaceAfter(t, rows, n + limit)) else Page(rows[n..], None))
  {
    hide EncodeCursor, DecodeCursor, Descending, GoodIds, After;
    SelectsRest(t, rows, n);
    TakePage(rows[n..], limit);
    if n + limit < |rows| {
      assert rows[n..][..limit] == rows[n..n + limit] && rows[n..n + limit][limit - 1] == rows[n + limit - 1];
    }
  }

  lemma CursorIsText(t: Text, row: Key)
    ensures EncodeCursor(t, row) != ""
  {
    assert EncodeCursor(t, row)[|t.iso(row.date)|] == '|';
  }

  /**
   * Following the cursors over an unchanged mailbox, with any page size but zero,
   * comes to an end and visits every matching message exactly once, newest first,
   * whatever dates are equal.
   */
  lemma PagesPartition(t: Text, rows: seq<Key>, limit: nat)
    requires Descending(rows) && GoodIds(t, rows) && limit >= 1
    ensures var pages := Follow(t, rows, limit, None, |rows| + 1);
            && pages.Some? && Items(pages.value) == rows
            && forall k :: 0 <= k < |pages.value| ==> |pages.value[k].items| <= limit
  {
    FollowFrom(t, rows, limit, 0, |rows| + 1);
    assert rows[0..] == rows;
  }

  lemma {:induction false} FollowFrom(t: Text, rows: seq<Key>, limit: nat, n: nat, fuel: nat)
    requires Descending(rows) && GoodIds(t, rows) && limit >= 1 && n <= |rows| && fuel > |rows| - n
    ensures var pages := Follow(t, rows, limit, PlaceAfter(t, rows, n), fuel);
            && pages.Some? && Items(pages.value) == rows[n..]
            && forall k :: 0 <= k < |pages.value| ==> |pages.value[k].items| <= limit
    decreases |rows| - n
  {
    hide List, PlaceAfter, Descending, GoodIds;
    PageAt(t, rows, limit, n);
    var page := List(t, rows, limit, PlaceAfter(t, rows, n)).value;
    if n + limit < |rows| {
      FollowFrom(t, rows, limit, n + limit, fuel - 1);
      CursorsAreThere(t, rows, n + limit);
      var more := Follow(t, rows, limit, page.cursor, fuel - 1).value;
      assert ([page] + more)[1..] == more;
      assert rows[n..] == rows[n..n + limit] + rows[n + limit..];
    } else {
      assert [page][1..] == [] && page.items + [] == page.items;
    }
  }

  lemma CursorsAreThere(t: Text, rows: seq<Key>, n: nat)
    requires 0 < n <= |rows|
    ensures PlaceAfter(t, rows, n).Some?
  {
  }

  /** A page size of zero shows nothing, and stops there. */
  lemma NothingByZero(t: Text, rows: seq<Key>)
    ensures List(t, rows, 0, None) == Some(Page([], None))
  {
  }
}
