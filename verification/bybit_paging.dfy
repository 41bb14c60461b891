/**
 * Cursor pagination as the Bybit adapter runs it: the first request sends
 * the sentinel cursor "no", every later one the `nextPageCursor` of the
 * page before, and the loop stops after the first page whose cursor is
 * empty. The exchange's answers are given in advance as a script of pages.
 */
module BybitPaging {

  datatype Page<T> = Page(items: seq<T>, nextPageCursor: string)

  /** The cursor the first request sends. */
  const FIRST_CURSOR: string := "no"

  /** The exchange ends the listing at some page. */
  predicate Ends<T>(script: seq<Page<T>>)
  {
    exists k :: 0 <= k < |script| && script[k].nextPageCursor == ""
  }

  /** The pages a cursor loop reads: up to and including the first page with
      an empty cursor. */
  function Consumed<T>(script: seq<Page<T>>): (r: seq<Page<T>>)
    ensures |r| <= |script|
  {
    if script == [] then []
    else if script[0].nextPageCursor == "" then [script[0]]
    else [script[0]] + Consumed(script[1..])
  }

  /** The cursors sent, starting from `cursor`, while reading `script`. */
  function CursorsFrom<T>(cursor: string, script: seq<Page<T>>): seq<string>
    decreases script
  {
    if script == [] then []
    else if script[0].nextPageCursor == "" then [cursor]
    else [cursor] + CursorsFrom(script[0].nextPageCursor, script[1..])
  }

  /** All rows of some pages, in order. */
  function Rows<T>(pages: seq<Page<T>>): seq<T>
  {
    if pages == [] then [] else pages[0].items + Rows(pages[1..])
  }

  /** One request per page read; the first sends "no", each later one the
      cursor of the page before; no request sends an empty cursor; and the
      last page read is the first one whose cursor is empty. */
  lemma {:induction false} CursorsMatchPages<T>(cursor: string, script: seq<Page<T>>)
    requires cursor != "" && Ends(script)
    ensures |CursorsFrom(cursor, script)| == |Consumed(script)| >= 1
    ensures CursorsFrom(cursor, script)[0] == cursor
    ensures forall k :: 0 < k < |Consumed(script)| ==>
              CursorsFrom(cursor, script)[k] == script[k - 1].nextPageCursor
    ensures forall k :: 0 <= k < |Consumed(script)| ==> CursorsFrom(cursor, script)[k] != ""
    ensures Consumed(script) == script[..|Consumed(script)|]
    ensures Consumed(script)[|Consumed(script)| - 1].nextPageCursor == ""
    ensures forall k :: 0 <= k < |Consumed(script)| - 1 ==> script[k].nextPageCursor != ""
    decreases script
  {
    if script[0].nextPageCursor != "" {
      var k :| 0 <= k < |script| && script[k].nextPageCursor == "";
      assert script[1..][k - 1].nextPageCursor == "";
      CursorsMatchPages(script[0].nextPageCursor, script[1..]);
    }
  }

  lemma {:induction false} RowsAppend<T>(a: seq<Page<T>>, b: seq<Page<T>>)
    ensures Rows(a + b) == Rows(a) + Rows(b)
  {
    if a == [] {
      assert a + b == b;
    } else {
      assert (a + b)[1..] == a[1..] + b;
      RowsAppend(a[1..], b);
    }
  }

  /** One turn of the loop on a page that is not the last. */
  lemma NextPage<T>(cursor: string, rest: seq<Page<T>>)
    requires Ends(rest) && rest[0].nextPageCursor != ""
    ensures Ends(rest[1..])
    ensures Rows(Consumed(rest)) == rest[0].items + Rows(Consumed(rest[1..]))
    ensures CursorsFrom(cursor, rest) == [cursor] + CursorsFrom(rest[0].nextPageCursor, rest[1..])
  {
    var k :| 0 <= k < |rest| && rest[k].nextPageCursor == "";
    assert rest[1..][k - 1].nextPageCursor == "";
    RowsAppend([rest[0]], Consumed(rest[1..]));
    assert Rows([rest[0]]) == rest[0].items;
  }

  /** The turn on the last page. */
  lemma LastPage<T>(cursor: string, rest: seq<Page<T>>)
    requires rest != [] && rest[0].nextPageCursor == ""
    ensures Rows(Consumed(rest)) == rest[0].items
    ensures CursorsFrom(cursor, rest) == [cursor]
  {
    assert Rows([rest[0]]) == rest[0].items + Rows([]);
  }

  /**
   * The `while cursor:` loop: returns the rows of every page read, in order,
   * and the cursors it sent.
   */
  method Paginate<T>(script: seq<Page<T>>) returns (rows: seq<T>, cursors: seq<string>)
    requires Ends(script)
    ensures rows == Rows(Consumed(script))
    ensures cursors == CursorsFrom(FIRST_CURSOR, script)
  {
    var cursor := FIRST_CURSOR;
    var rest := script;
    rows := [];
    cursors := [];
    while cursor != ""
      invariant cursor != "" ==> Ends(rest)
      invariant cursor != "" ==> rows + Rows(Consumed(rest)) == Rows(Consumed(script))
      invariant cursor != "" ==> cursors + CursorsFrom(cursor, rest) == CursorsFrom(FIRST_CURSOR, script)
      invariant cursor == "" ==> rows == Rows(Consumed(script)) && cursors == CursorsFrom(FIRST_CURSOR, script)
      decreases |rest|
    {
      assert rest != [];
      var page := rest[0];
      if page.nextPageCursor != "" {
        NextPage(cursor, rest);
      } else {
        LastPage(cursor, rest);
      }
      cursors := cursors + [cursor];
      rows := rows + page.items;
      cursor := page.nextPageCursor;
      rest := rest[1..];
    }
  }
}
