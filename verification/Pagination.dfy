/** Keyset pagination as the server answers it: one page of an ordered table after a cursor. */
module Pagination {
  import opened Basics

  const MAX_PAGE_BYTES := 524_288

  /** A row with its place in the query's total order and the size it takes in a page. */
  datatype Row = Row(key: int, bytes: nat, body: string)

  /** A cursor is the place of the last row of a page; none asks for the beginning. */
  type Cursor = Option<int>

  datatype Page = Page(items: seq<Row>, next: Cursor)

  predicate InOrder(table: seq<Row>) {
    forall i, j | 0 <= i < j < |table| :: table[i].key < table[j].key
  }

  function CountUpTo(table: seq<Row>, key: int): (n: nat)
    ensures n <= |table|
  {
    if table == [] || table[0].key > key then 0 else 1 + CountUpTo(table[1..], key)
  }

  /** The first row after a cursor. */
  function After(table: seq<Row>, cursor: Cursor): (n: nat)
    ensures n <= |table|
  {
    match cursor
    case None => 0
    case Some(key) => CountUpTo(table, key)
  }

  lemma NoneUpTo(table: seq<Row>, key: int)
    requires table != [] ==> table[0].key > key
    ensures CountUpTo(table, key) == 0
  {
  }

  lemma {:induction false} AfterOwnRow(table: seq<Row>, i: nat)
    requires InOrder(table) && i < |table|
    ensures After(table, Some(table[i].key)) == i + 1
  {
    if i == 0 {
      NoneUpTo(table[1..], table[0].key);
    } else {
      assert table[0].key < table[i].key;
      AfterOwnRow(table[1..], i - 1);
    }
  }

  /** Rows that follow the cursor without a gap, and a next cursor exactly when rows remain. */
  predicate IsPage(table: seq<Row>, cursor: Cursor, page: Page) {
    var from := After(table, cursor);
    var end := from + |page.items|;
    && end <= |table| && page.items == table[from..end]
    && page.next == (if end < |table| && page.items != [] then Some(table[end - 1].key) else None)
    && (page.items == [] ==> end == |table|)
  }

  function Bytes(rows: seq<Row>): nat {
    if rows == [] then 0 else Bytes(rows[..|rows| - 1]) + rows[|rows| - 1].bytes
  }

  /** Rows take more than one only within the budget. */
  predicate Fits(rows: seq<Row>) {
    |rows| <= 1 || Bytes(rows) <= MAX_PAGE_BYTES
  }

  lemma NoneFits()
    ensures Bytes([]) == 0 && Fits([])
  {
  }

  lemma OneMoreFits(rows: seq<Row>, row: Row)
    ensures Bytes(rows + [row]) == Bytes(rows) + row.bytes
    ensures Fits(rows + [row]) <==> rows == [] || Bytes(rows) + row.bytes <= MAX_PAGE_BYTES
  {
    assert (rows + [row])[..|rows|] == rows;
  }

  /** The rows that fit the byte budget, at least one of them, and as many as do. */
  method WithinBudget(raws: seq<Row>) returns (items: seq<Row>, beyondBudget: bool)
    ensures |items| <= |raws| && items == raws[..|items|]
    ensures raws != [] ==> items != []
    ensures beyondBudget <==> |items| < |raws|
    ensures Fits(items) && (beyondBudget ==> !Fits(items + [raws[|items|]]))
  {
    hide Fits, Bytes;
    items, beyondBudget := [], false;
    NoneFits();
    var bytes := 0;
    while |items| < |raws| && !beyondBudget
      invariant |items| <= |raws| && items == raws[..|items|]
      invariant bytes == Bytes(items) && Fits(items)
      invariant beyondBudget ==> 0 < |items| < |raws| && !Fits(items + [raws[|items|]])
      decreases |raws| - |items|, !beyondBudget
    {
      var raw := raws[|items|];
      OneMoreFits(items, raw);
      assert raws[..|items| + 1] == items + [raw];
      if |items| > 0 && bytes + raw.bytes > MAX_PAGE_BYTES {
        beyondBudget := true;
      } else {
        bytes := bytes + raw.bytes;
        items := items + [raw];
      }
    }
  }

  /** Reading one row more than a page and cutting it off leaves the rows of the page. */
  lemma StretchOf(table: seq<Row>, from: nat, size: nat)
    requires from <= |table|
    ensures |table| - from > size ==>
              (if |table| - from > size + 1 then table[from..from + size + 1] else table[from..])[..size]
              == table[from..from + size]
  {
  }

  lemma StretchPart(table: seq<Row>, from: nat, size: nat, n: nat)
    requires n <= size && from + size <= |table|
    ensures table[from..from + size][..n] == table[from..from + n]
    ensures n < size ==> table[from..from + size][n] == table[from + n]
  {
  }

  /** Rows that stop short of those read, or of those there are, name a next cursor. */
  lemma CutIsPage(table: seq<Row>, cursor: Cursor, items: seq<Row>, pageSize: nat, size: nat)
    requires var from := After(table, cursor);
             && size == (if |table| - from > pageSize then pageSize else |table| - from)
             && |items| <= size && items == table[from..from + |items|] && (size > 0 ==> items != [])
    requires pageSize > 0
    ensures var whole := |table| - After(table, cursor) <= pageSize && |items| == size;
            IsPage(table, cursor, Page(items, if whole || items == [] then None else Some(items[|items| - 1].key)))
  {
    hide After;
  }

  /**
   * One page: at most `pageSize` rows, and no fewer than that unless the next row
   * would not fit or there is none.
   */
  method ReadPage(table: seq<Row>, cursor: Cursor, pageSize: nat) returns (page: Page)
    requires pageSize > 0
    ensures IsPage(table, cursor, page) && |page.items| <= pageSize && Fits(page.items)
    ensures var end := After(table, cursor) + |page.items|;
            |page.items| < pageSize && end < |table| ==> !Fits(page.items + [table[end]])
  {
    hide After, Fits, IsPage;
    var from := After(table, cursor);
    var raws := if |table| - from > pageSize + 1 then table[from..from + pageSize + 1] else table[from..];
    var beyondPage := |raws| > pageSize;
    if beyondPage { raws := raws[..pageSize]; }
    assert raws == table[from..from + |raws|] by { StretchOf(table, from, pageSize); }
    var items, beyondBudget := WithinBudget(raws);
    StretchPart(table, from, |raws|, |items|);
    CutIsPage(table, cursor, items, pageSize, |raws|);
    var next := if (!beyondPage && !beyondBudget) || items == [] then None else Some(items[|items| - 1].key);
    return Page(items, next);
  }
}
