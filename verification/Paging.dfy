/** Keyset pagination of the messages of a conversation (backend/repositories/conversation.py,
    `page_for_conversation`; backend/repositories/base.py, `split_page`). */
module Paging {
  import opened Ranking

  /** The sort key of a row: creation time, then id. */
  datatype Key = Key(created: nat, id: nat)

  datatype Cursor = Start | Behind(key: Key)

  datatype Page = Page(rows: seq<Key>, next: Cursor, more: bool)

  predicate KeyLess(a: Key, b: Key) {
    a.created < b.created || (a.created == b.created && a.id < b.id)
  }

  const LESS: Order<Key> := (a, b) => KeyLess(a, b)

  lemma LessIsTotal()
    ensures StrictTotal(LESS)
  {}

  predicate Past(cursor: Cursor, key: Key) {
    cursor.Behind? ==> KeyLess(cursor.key, key)
  }

  function After(table: set<Key>, cursor: Cursor): set<Key> {
    set key | key in table && Past(cursor, key)
  }

  /** One row more than a page is fetched; it says whether there is a next page. */
  function SplitPage(rows: seq<Key>, limit: nat): Page
    requires limit > 0
  {
    if |rows| <= limit then Page(rows, Start, false) else Page(rows[..limit], Behind(rows[limit - 1]), true)
  }

  ghost predicate IsPage(table: set<Key>, cursor: Cursor, limit: nat, page: Page)
    requires limit > 0
  {
    exists rows :: TopOf(LESS, After(table, cursor), limit + 1, rows) && page == SplitPage(rows, limit)
  }

  method PageForConversation(table: set<Key>, cursor: Cursor, limit: nat) returns (page: Page)
    requires limit > 0
    ensures IsPage(table, cursor, limit, page)
  {
    LessIsTotal();
    var ordered := Sort(LESS, After(table, cursor));
    CutIsTop(LESS, After(table, cursor), limit + 1, ordered);
    var rows := ordered[..Least(limit + 1, |ordered|)];
    page := SplitPage(rows, limit);
  }

  // ---- What one page means ----

  predicate ByTimeThenId(a: Key, b: Key) {
    a.created <= b.created && (a.created == b.created ==> a.id < b.id)
  }

  /** One page is the next rows in the order of their times, and of their ids where the times are equal; the
      cursor of its last row is given exactly when there is more, and skips nothing. */
  lemma PageMeaning(table: set<Key>, cursor: Cursor, limit: nat, page: Page)
    requires limit > 0 && IsPage(table, cursor, limit, page)
    ensures Sorted(LESS, page.rows) && |page.rows| == (if limit < |After(table, cursor)| then limit else |After(table, cursor)|)
    ensures forall i, j :: 0 <= i < j < |page.rows| ==> ByTimeThenId(page.rows[i], page.rows[j])
    ensures forall key :: key in page.rows ==> key in table && (cursor == Start || ByTimeThenId(cursor.key, key))
    ensures page.more <==> |After(table, cursor)| > limit
    ensures page.more ==> page.rows != [] && page.next == Behind(page.rows[|page.rows| - 1])
    ensures forall key :: key in After(table, cursor) && key !in page.rows ==> page.more && Past(page.next, key)
  {
    var rows :| TopOf(LESS, After(table, cursor), limit + 1, rows) && page == SplitPage(rows, limit);
    assert forall key :: key in page.rows ==> key in rows;
    if page.more {
      NothingSkipped(After(table, cursor), limit, rows);
    } else {
      AllTaken(After(table, cursor), rows);
    }
  }

  lemma NothingSkipped(all: set<Key>, limit: nat, rows: seq<Key>)
    requires limit > 0 && TopOf(LESS, all, limit + 1, rows) && |rows| > limit
    ensures forall key :: key in all && key !in rows[..limit] ==> KeyLess(rows[limit - 1], key)
  {
    var last := rows[limit - 1];
    assert last in rows;
    assert forall i :: 0 <= i < limit ==> rows[i] in rows[..limit];
    forall key | key in all && key !in rows[..limit] ensures LESS(last, key) {
      if key in rows {
        var i :| 0 <= i < |rows| && rows[i] == key;
      }
    }
  }

  lemma AllTaken(all: set<Key>, rows: seq<Key>)
    requires Sorted(LESS, rows) && |rows| == |all| && forall key :: key in rows ==> key in all
    ensures forall key :: key in all ==> key in rows
  {
    var taken := set key | key in rows;
    DistinctRows(rows);
    if taken != all {
      SmallerSet(taken, all);
    }
  }

  lemma {:induction false} DistinctRows(rows: seq<Key>)
    requires Sorted(LESS, rows)
    ensures |set key | key in rows| == |rows|
  {
    if rows != [] {
      var init, last := rows[..|rows| - 1], rows[|rows| - 1];
      DistinctRows(init);
      assert (set key | key in rows) == (set key | key in init) + {last};
    }
  }

  lemma {:induction false} SmallerSet(a: set<Key>, b: set<Key>)
    requires a < b
    ensures |a| < |b|
  {
    if a != {} {
      var x :| x in a;
      SmallerSet(a - {x}, b - {x});
    }
  }

  // ---- Following the cursor ----

  /** A walk: page i is read from the table as it then is; it ends with the first page without a next. */
  ghost predicate IsWalk(tables: seq<set<Key>>, cursor: Cursor, limit: nat, pages: seq<Page>)
    requires limit > 0
  {
    |pages| <= |tables| &&
    (pages != [] ==>
       && IsPage(tables[0], cursor, limit, pages[0])
       && (if pages[0].more then IsWalk(tables[1..], pages[0].next, limit, pages[1..]) else |pages| == 1))
  }

  function Shown(pages: seq<Page>): seq<Key> {
    if pages == [] then [] else pages[0].rows + Shown(pages[1..])
  }

  predicate Ended(pages: seq<Page>) {
    pages != [] && !pages[|pages| - 1].more
  }

  /** Whatever is inserted or deleted between the pages: rows come in order, none twice, and a row that is
      there all along is shown by the time the walk ends. */
  lemma {:induction false} WalkShowsEachOnce(tables: seq<set<Key>>, cursor: Cursor, limit: nat, pages: seq<Page>)
    requires limit > 0 && IsWalk(tables, cursor, limit, pages)
    ensures Sorted(LESS, Shown(pages))
    ensures forall key :: key in Shown(pages) ==> Past(cursor, key) && exists i :: 0 <= i < |pages| && key in tables[i]
    ensures Ended(pages) ==>
              forall key :: Past(cursor, key) && (forall i :: 0 <= i < |pages| ==> key in tables[i]) ==> key in Shown(pages)
    decreases |pages|
  {
    if pages != [] {
      PageMeaning(tables[0], cursor, limit, pages[0]);
      if pages[0].more {
        WalkShowsEachOnce(tables[1..], pages[0].next, limit, pages[1..]);
        Joined(pages[0].rows, Shown(pages[1..]));
        forall key | key in Shown(pages)
          ensures Past(cursor, key) && exists i :: 0 <= i < |pages| && key in tables[i]
        {
          if key in pages[0].rows {
            assert key in tables[0];
          } else {
            assert Past(pages[0].next, key) && pages[0].rows[|pages[0].rows| - 1] in pages[0].rows;
            var i :| 0 <= i < |pages[1..]| && key in tables[1..][i];
            assert key in tables[i + 1];
          }
        }
        if Ended(pages) {
          StillThere(tables, cursor, limit, pages);
        }
      } else {
        assert Shown(pages[1..]) == [];
      }
    }
  }

  lemma Joined(a: seq<Key>, b: seq<Key>)
    requires Sorted(LESS, a) && Sorted(LESS, b) && a != [] && forall key :: key in b ==> KeyLess(a[|a| - 1], key)
    ensures Sorted(LESS, a + b)
  {
    forall i, j | 0 <= i < j < |a + b| ensures LESS((a + b)[i], (a + b)[j]) {
      if i < |a| <= j {
        assert b[j - |a|] in b;
        assert i < |a| - 1 ==> LESS(a[i], a[|a| - 1]);
      }
    }
  }

  lemma StillThere(tables: seq<set<Key>>, cursor: Cursor, limit: nat, pages: seq<Page>)
    requires limit > 0 && |pages| <= |tables| && pages != [] && pages[0].more && IsPage(tables[0], cursor, limit, pages[0])
    requires |pages| > 1
    requires forall key :: Past(pages[0].next, key) && (forall i :: 0 <= i < |pages[1..]| ==> key in tables[1..][i]) ==> key in Shown(pages[1..])
    ensures forall key :: Past(cursor, key) && (forall i :: 0 <= i < |pages| ==> key in tables[i]) ==> key in Shown(pages)
  {
    PageMeaning(tables[0], cursor, limit, pages[0]);
    forall key | Past(cursor, key) && (forall i :: 0 <= i < |pages| ==> key in tables[i]) ensures key in Shown(pages) {
      if key !in pages[0].rows {
        assert key in After(tables[0], cursor);
        forall i | 0 <= i < |pages[1..]| ensures key in tables[1..][i] {
          assert tables[1..][i] == tables[i + 1];
        }
      }
    }
  }

  function Pages(n: nat, limit: nat): nat
    requires limit > 0
  {
    if n <= limit then 1 else 1 + Pages(n - limit, limit)
  }

  /** That many pages is the least number that holds all rows, and at least one. */
  lemma {:induction false} PagesIsCeiling(n: nat, limit: nat)
    requires limit > 0
    ensures n <= Pages(n, limit) * limit && Pages(n, limit) >= 1
    ensures n > 0 ==> (Pages(n, limit) - 1) * limit < n
  {
    if n > limit {
      PagesIsCeiling(n - limit, limit);
      var p := Pages(n - limit, limit);
      assert (p + 1) * limit == p * limit + limit;
      assert (p - 1) * limit == p * limit - limit;
    }
  }

  /** On a table at rest a walk that has ended shows the whole rest of it, in order, in as many pages as it
      takes and no empty one at the end. */
  lemma {:induction false} WalkAtRest(table: set<Key>, tables: seq<set<Key>>, cursor: Cursor, limit: nat, pages: seq<Page>)
    requires limit > 0 && IsWalk(tables, cursor, limit, pages) && Ended(pages)
    requires forall i :: 0 <= i < |tables| ==> tables[i] == table
    ensures |pages| == Pages(|After(table, cursor)|, limit)
    ensures Sorted(LESS, Shown(pages)) && forall key :: key in Shown(pages) <==> key in After(table, cursor)
    decreases |pages|
  {
    WalkShowsEachOnce(tables, cursor, limit, pages);
    PageMeaning(tables[0], cursor, limit, pages[0]);
    forall key | key in After(table, cursor) ensures key in Shown(pages) {
      assert forall i :: 0 <= i < |pages| ==> key in tables[i];
    }
    if pages[0].more {
      assert pages[1..][|pages[1..]| - 1] == pages[|pages| - 1];
      WalkAtRest(table, tables[1..], pages[0].next, limit, pages[1..]);
      RestAfterPage(table, cursor, limit, pages[0]);
    }
  }

  /** A walk on a table at rest stops: it has no more pages than that, and has ended exactly when it has as
      many. */
  lemma {:induction false} WalkStops(table: set<Key>, tables: seq<set<Key>>, cursor: Cursor, limit: nat, pages: seq<Page>)
    requires limit > 0 && IsWalk(tables, cursor, limit, pages) && pages != []
    requires forall i :: 0 <= i < |tables| ==> tables[i] == table
    ensures |pages| <= Pages(|After(table, cursor)|, limit)
    ensures Ended(pages) <==> |pages| == Pages(|After(table, cursor)|, limit)
    decreases |pages|
  {
    PageMeaning(tables[0], cursor, limit, pages[0]);
    if pages[0].more {
      RestAfterPage(table, cursor, limit, pages[0]);
      PagesIsCeiling(|After(table, pages[0].next)|, limit);
      if |pages| > 1 {
        WalkStops(table, tables[1..], pages[0].next, limit, pages[1..]);
        assert pages[1..][|pages[1..]| - 1] == pages[|pages| - 1];
      }
    }
  }

  lemma RestAfterPage(table: set<Key>, cursor: Cursor, limit: nat, page: Page)
    requires limit > 0 && IsPage(table, cursor, limit, page) && page.more
    ensures |After(table, page.next)| == |After(table, cursor)| - limit
  {
    PageMeaning(table, cursor, limit, page);
    var taken := set key | key in page.rows;
    DistinctRows(page.rows);
    forall key ensures key in After(table, cursor) <==> key in taken || key in After(table, page.next) {
      assert page.rows[|page.rows| - 1] in page.rows;
    }
    forall i | 0 <= i < |page.rows| ensures page.rows[i] !in After(table, page.next) {}
    assert After(table, cursor) == taken + After(table, page.next);
    assert taken !! After(table, page.next);
  }
}
