/** Offset pagination as the feed and the discover list use it:
    `.range(p * size, (p + 1) * size - 1)`, an inclusive row range. */
module Paging {

  function Min(a: int, b: int): int {
    if a <= b then a else b
  }

  /** Page `pageNum` of `rows`: at most `size` rows starting at row
      size * pageNum, fewer at the end, none past it. */
  function PageOf<T>(rows: seq<T>, pageNum: nat, size: nat): (page: seq<T>)
    ensures |page| <= size
    ensures |page| == size <==> size * pageNum + size <= |rows|
    ensures size * pageNum >= |rows| ==> page == []
    ensures forall i :: 0 <= i < |page| ==> size * pageNum + i < |rows| && page[i] == rows[size * pageNum + i]
  {
    rows[Min(size * pageNum, |rows|)..Min(size * pageNum + size, |rows|)]
  }

  /** Pages 0 .. pages - 1, appended in order. */
  function Loaded<T>(rows: seq<T>, pages: nat, size: nat): seq<T> {
    if pages == 0 then [] else Loaded(rows, pages - 1, size) + PageOf(rows, pages - 1, size)
  }

  /** Appending consecutive pages yields a prefix of the rows, with no row
      skipped and none repeated. */
  lemma {:induction false} LoadedIsPrefix<T>(rows: seq<T>, pages: nat, size: nat)
    ensures Loaded(rows, pages, size) == rows[..Min(size * pages, |rows|)]
  {
    if pages > 0 {
      LoadedIsPrefix(rows, pages - 1, size);
      assert size * pages == size * (pages - 1) + size;
      var a := Min(size * (pages - 1), |rows|);
      var b := Min(size * pages, |rows|);
      assert PageOf(rows, pages - 1, size) == rows[a..b];
      assert rows[..a] + rows[a..b] == rows[..b];
    }
  }

  /** A short page means the pages loaded so far hold every row. */
  lemma ShortPageMeansEnd<T>(rows: seq<T>, pageNum: nat, size: nat)
    requires |PageOf(rows, pageNum, size)| < size
    ensures Loaded(rows, pageNum + 1, size) == rows
  {
    LoadedIsPrefix(rows, pageNum + 1, size);
    assert size * (pageNum + 1) == size * pageNum + size;
    assert rows[..|rows|] == rows;
  }

  /** Appending the next page to the pages loaded so far is loading one page more. */
  lemma AppendNextPage<T>(rows: seq<T>, pageNum: nat, size: nat)
    ensures Loaded(rows, pageNum, size) + PageOf(rows, pageNum, size) == Loaded(rows, pageNum + 1, size)
  {
  }

  /** When the rows are an exact multiple of the page size, every page comes
      back full, so one more request returns an empty page. */
  lemma FullLastPageCostsOneEmptyFetch<T>(rows: seq<T>, size: nat, pages: nat)
    requires size > 0 && |rows| == size * pages
    ensures pages > 0 ==> |PageOf(rows, pages - 1, size)| == size
    ensures PageOf(rows, pages, size) == []
  {
    if pages > 0 {
      assert size * (pages - 1) + size == size * pages;
    }
  }
}
