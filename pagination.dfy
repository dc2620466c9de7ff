/** The pagination bar: the page numbers it shows, with "..." standing for
    hidden runs, and when its Prev and Next buttons are disabled. */
module Pagination {

  datatype PageEntry = Num(page: int) | Dots

  /** `Array.from({ length: n }, (_, i) => from + i)`. */
  function Run(from: int, n: nat): (r: seq<PageEntry>)
    ensures |r| == n && forall i :: 0 <= i < n ==> r[i] == Num(from + i)
  {
    seq(n, i requires 0 <= i < n => Num(from + i))
  }

  /** `generatePageNumbers`. */
  function PageNumbers(currentPage: int, totalPages: nat, siblingCount: nat): seq<PageEntry>
  {
    var totalNumbers := siblingCount * 2 + 5;
    var totalBlocks := totalNumbers + 2;
    if totalPages <= totalBlocks then Run(1, totalPages)
    else
      var leftSibling := if currentPage - siblingCount > 1 then currentPage - siblingCount else 1;
      var rightSibling := if currentPage + siblingCount < totalPages then currentPage + siblingCount else totalPages;
      var showLeftDots := leftSibling > 2;
      var showRightDots := rightSibling < totalPages - 2;
      if !showLeftDots && showRightDots then
        Run(1, 3 + 2 * siblingCount) + [Dots, Num(totalPages)]
      else if showLeftDots && !showRightDots then
        [Num(1), Dots] + Run(totalPages - (3 + 2 * siblingCount) + 1, 3 + 2 * siblingCount)
      else if showLeftDots && showRightDots then
        [Num(1), Dots] + Run(leftSibling, 2 * siblingCount + 1) + [Dots, Num(totalPages)]
      else []
  }

  /** The entries read as a well-formed bar over pages 1..totalPages: it
      starts at page 1 and ends at the last page, neighbouring numbers are
      consecutive, a "..." sits between two numbers and hides at least one
      page, and no two "..." are adjacent. */
  ghost predicate WellFormed(r: seq<PageEntry>, totalPages: nat)
  {
    |r| > 0 && r[0] == Num(1) && r[|r| - 1] == Num(totalPages) &&
    (forall i :: 0 <= i < |r| - 1 && r[i].Num? && r[i + 1].Num? ==> r[i + 1].page == r[i].page + 1) &&
    (forall i :: 0 <= i < |r| && r[i].Dots? ==>
      0 < i < |r| - 1 && r[i - 1].Num? && r[i + 1].Num? && r[i + 1].page >= r[i - 1].page + 2)
  }

  /** The numbers of a well-formed bar rise strictly and stay within
      1..totalPages. */
  lemma {:induction false} WellFormedIncreasing(r: seq<PageEntry>, totalPages: nat, i: nat, j: nat)
    requires WellFormed(r, totalPages)
    requires i < j < |r| && r[i].Num? && r[j].Num?
    ensures r[i].page < r[j].page
    decreases j - i
  {
    if j == i + 1 {
    } else if r[i + 1].Num? {
      WellFormedIncreasing(r, totalPages, i + 1, j);
    } else {
      if i + 2 < j {
        WellFormedIncreasing(r, totalPages, i + 2, j);
      }
    }
  }

  /** Every page in order is a well-formed bar. */
  lemma RunWellFormed(totalPages: nat)
    requires totalPages > 0
    ensures WellFormed(Run(1, totalPages), totalPages)
  {
  }

  /** The bar of the first branch: the first pages, "..." and the last page. */
  lemma LeftBranchWellFormed(n: nat, totalPages: nat)
    requires 0 < n && n + 2 < totalPages
    ensures WellFormed(Run(1, n) + [Dots, Num(totalPages)], totalPages)
  {
    var r := Run(1, n) + [Dots, Num(totalPages)];
    assert r[n] == Dots && r[n - 1] == Num(n) && r[n + 1] == Num(totalPages);
  }

  /** The bar of the second branch: page 1, "..." and the last pages. */
  lemma RightBranchWellFormed(n: nat, totalPages: nat)
    requires 0 < n && n + 2 < totalPages
    ensures WellFormed([Num(1), Dots] + Run(totalPages - n + 1, n), totalPages)
  {
    var r := [Num(1), Dots] + Run(totalPages - n + 1, n);
    assert r[1] == Dots && r[2] == Num(totalPages - n + 1) && r[|r| - 1] == Num(totalPages);
  }

  /** The bar of the third branch: page 1, "...", the pages around the
      current one, "..." and the last page. */
  lemma MiddleBranchWellFormed(from: int, n: nat, totalPages: nat)
    requires 0 < n && 2 < from && from + n < totalPages
    ensures WellFormed([Num(1), Dots] + Run(from, n) + [Dots, Num(totalPages)], totalPages)
  {
    var r := [Num(1), Dots] + Run(from, n) + [Dots, Num(totalPages)];
    assert r[1] == Dots && r[2] == Num(from);
    assert r[n + 2] == Dots && r[n + 1] == Num(from + n - 1) && r[n + 3] == Num(totalPages);
  }

  /** Up to 2 * siblingCount + 7 pages every page is listed; beyond that
      the bar always has exactly 2 * siblingCount + 5 entries, whatever the
      current page (even one outside 1..totalPages), and is well formed. */
  lemma PageNumbersSpec(currentPage: int, totalPages: nat, siblingCount: nat)
    ensures totalPages <= 2 * siblingCount + 7 ==> PageNumbers(currentPage, totalPages, siblingCount) == Run(1, totalPages)
    ensures totalPages > 2 * siblingCount + 7 ==> |PageNumbers(currentPage, totalPages, siblingCount)| == 2 * siblingCount + 5
    ensures totalPages > 0 ==> WellFormed(PageNumbers(currentPage, totalPages, siblingCount), totalPages)
  {
    var s := siblingCount;
    var r := PageNumbers(currentPage, totalPages, siblingCount);
    var n := 2 * s + 3;
    if totalPages <= n + 4 {
      if totalPages > 0 {
        RunWellFormed(totalPages);
      }
    } else {
      var leftSibling := if currentPage - s > 1 then currentPage - s else 1;
      var rightSibling := if currentPage + s < totalPages then currentPage + s else totalPages;
      if !(leftSibling > 2) && rightSibling < totalPages - 2 {
        assert r == Run(1, n) + [Dots, Num(totalPages)];
        LeftBranchWellFormed(n, totalPages);
      } else if leftSibling > 2 && !(rightSibling < totalPages - 2) {
        assert r == [Num(1), Dots] + Run(totalPages - n + 1, n);
        RightBranchWellFormed(n, totalPages);
      } else if leftSibling > 2 && rightSibling < totalPages - 2 {
        assert r == [Num(1), Dots] + Run(leftSibling, n - 2) + [Dots, Num(totalPages)];
        MiddleBranchWellFormed(leftSibling, n - 2, totalPages);
      } else {
        assert false;
      }
    }
  }

  /** A current page within 1..totalPages is always among the numbers shown. */
  lemma CurrentPageShown(currentPage: int, totalPages: nat, siblingCount: nat)
    requires 1 <= currentPage <= totalPages
    ensures Num(currentPage) in PageNumbers(currentPage, totalPages, siblingCount)
  {
    var r := PageNumbers(currentPage, totalPages, siblingCount);
    var s := siblingCount;
    if totalPages <= 2 * s + 7 {
      assert r[currentPage - 1] == Num(currentPage);
    } else {
      var leftSibling := if currentPage - s > 1 then currentPage - s else 1;
      var rightSibling := if currentPage + s < totalPages then currentPage + s else totalPages;
      if !(leftSibling > 2) && rightSibling < totalPages - 2 {
        assert r[currentPage - 1] == Num(currentPage);
      } else if leftSibling > 2 && !(rightSibling < totalPages - 2) {
        assert r[2 + currentPage - (totalPages - (3 + 2 * s) + 1)] == Num(currentPage);
      } else {
        assert r[2 + s] == Num(currentPage);
      }
    }
  }

  /** The Prev button is disabled on page 1 and the Next button on the last
      page; a click asks for the page one below or above. */
  datatype Buttons = Buttons(prevDisabled: bool, prevTarget: int, nextDisabled: bool, nextTarget: int)

  function NavButtons(currentPage: int, totalPages: nat): (b: Buttons)
    ensures b.prevDisabled <==> currentPage == 1
    ensures b.nextDisabled <==> currentPage == totalPages
    ensures b.prevTarget == currentPage - 1 && b.nextTarget == currentPage + 1
  {
    Buttons(currentPage == 1, currentPage - 1, currentPage == totalPages, currentPage + 1)
  }

  /** Next is only disabled on exactly the last page: with no pages at all,
      or once past the end, it stays enabled and leads further past the end. */
  lemma NextPastTheEnd(currentPage: int, totalPages: nat)
    requires currentPage > totalPages
    ensures !NavButtons(currentPage, totalPages).nextDisabled
    ensures NavButtons(currentPage, totalPages).nextTarget > totalPages
  {
  }
}
