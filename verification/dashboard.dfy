/** app/dashboard/page.tsx: the admin's user list, its pagination bar and
    the delete confirmation dialog.

    The server's answer (the page of users and its pagination record) and
    the outcome of a delete call are parameters; the page shown and the
    dialog are the state the handlers set. */
module Dashboard {
  import opened Js

  /** Users asked for per page. */
  const Limit := 10

  /** The `pagination` record the users endpoint returns. */
  datatype Pagination = Pagination(page: int, total: int, totalPages: int, hasPrev: bool, hasNext: bool)

  /** The filter that picks the page buttons: the first page, the last
      page, and the pages next to the current one. */
  predicate Shown(p: int, totalPages: int, page: int) {
    p == 1 || p == totalPages || (page - 1 <= p <= page + 1)
  }

  /** The filter applied to the pages `1..n`. */
  function ShownUpTo(n: nat, totalPages: int, page: int): (r: seq<int>)
    ensures |r| <= n
  {
    if n == 0 then []
    else ShownUpTo(n - 1, totalPages, page) + (if Shown(n, totalPages, page) then [n] else [])
  }

  /** The filter keeps exactly the shown pages of `1..n`, in ascending
      order. */
  lemma {:induction false} ShownUpToSpec(n: nat, totalPages: int, page: int)
    ensures var r := ShownUpTo(n, totalPages, page);
      && (forall p :: p in r <==> 1 <= p <= n && Shown(p, totalPages, page))
      && (forall i, j | 0 <= i < j < |r| :: r[i] < r[j])
      && (forall i | 0 <= i < |r| :: 1 <= r[i] <= n)
  {
    if n > 0 {
      ShownUpToSpec(n - 1, totalPages, page);
    }
  }

  /** `Array.from({ length: totalPages }, (_, i) => i + 1).filter(...)`:
      the page buttons, in ascending order. */
  function PageWindow(totalPages: nat, page: int): (r: seq<int>)
    ensures forall p :: p in r <==> 1 <= p <= totalPages && (p == 1 || p == totalPages || page - 1 <= p <= page + 1)
    ensures forall i, j | 0 <= i < j < |r| :: r[i] < r[j]
  {
    ShownUpToSpec(totalPages, totalPages, page);
    ShownUpTo(totalPages, totalPages, page)
  }

  /** The first and the last page always have a button, and so does the
      current page when it is in range. */
  lemma WindowHasEndsAndCurrent(totalPages: nat, page: int)
    requires totalPages >= 1
    ensures 1 in PageWindow(totalPages, page) && totalPages in PageWindow(totalPages, page)
    ensures 1 <= page <= totalPages ==> page in PageWindow(totalPages, page)
  {
  }

  /** `index > 0 && array[index - 1] !== p - 1`: an ellipsis precedes the
      button at `index`. */
  predicate EllipsisBefore(w: seq<int>, index: nat)
    requires index < |w|
  {
    index > 0 && w[index - 1] != w[index] - 1
  }

  /** An ellipsis precedes a button exactly when it is not the first one and
      the page before it has no button: it marks the pages left out. */
  lemma EllipsisIffGap(totalPages: nat, page: int, index: nat)
    requires index < |PageWindow(totalPages, page)|
    ensures var w := PageWindow(totalPages, page);
      EllipsisBefore(w, index) <==> index > 0 && (w[index] - 1) !in w
  {
    var w := PageWindow(totalPages, page);
    if index > 0 && (w[index] - 1) in w {
      var k :| 0 <= k < |w| && w[k] == w[index] - 1;
      IncreasingOrder(w, k, index);
      IncreasingOrder(w, k, index - 1);
    }
  }

  /** In a strictly increasing list, values compare as their positions. */
  lemma IncreasingOrder(w: seq<int>, i: nat, j: nat)
    requires forall a, b | 0 <= a < b < |w| :: w[a] < w[b]
    requires i < |w| && j < |w|
    ensures w[i] < w[j] <==> i < j
  {
  }

  /** The first number of "Showing x to y of z". */
  function RangeFrom(page: int): (r: int)
    ensures r == (page - 1) * Limit + 1
    ensures page >= 1 ==> r >= 1
  {
    (page - 1) * Limit + 1
  }

  /** The second number: `Math.min(page * limit, total)`. */
  function RangeTo(page: int, total: int): (r: int)
    ensures r <= total && r <= page * Limit
    ensures r == total || r == page * Limit
  {
    if page * Limit < total then page * Limit else total
  }

  /** For a page the server could send (from 1 up to the last page that has
      users), the label names a non-empty run of at most `Limit` users
      within the total, and consecutive pages' runs abut. */
  lemma RangeIsAPage(page: int, total: int)
    requires page >= 1 && (page - 1) * Limit < total
    ensures 1 <= RangeFrom(page) <= RangeTo(page, total) <= total
    ensures RangeTo(page, total) - RangeFrom(page) + 1 <= Limit
    ensures RangeTo(page, total) < total ==> RangeFrom(page + 1) == RangeTo(page, total) + 1
  {
  }

  /** The pagination bar as rendered: the label, the two buttons' disabled
      flags, and the page buttons around the page the client holds. */
  datatype Bar = Bar(from: int, to: int, total: int, prevDisabled: bool, nextDisabled: bool, pages: seq<int>)

  /** `pagination && pagination.totalPages > 1 && (...)`, inside the branch
      taken when the list has users. The label follows the server's page,
      the buttons the client's. */
  function PaginationBar(hasUsers: bool, pagination: Option<Pagination>, page: int): (r: Option<Bar>)
    ensures r.Some? <==> hasUsers && pagination.Some? && pagination.value.totalPages > 1
    ensures r.Some? ==>
      && r.value.prevDisabled == !pagination.value.hasPrev
      && r.value.nextDisabled == !pagination.value.hasNext
      && (forall p :: p in r.value.pages <==> 1 <= p <= pagination.value.totalPages && Shown(p, pagination.value.totalPages, page))
  {
    if hasUsers && pagination.Some? && pagination.value.totalPages > 1 then
      var pg := pagination.value;
      Some(Bar(RangeFrom(pg.page), RangeTo(pg.page, pg.total), pg.total, !pg.hasPrev, !pg.hasNext, PageWindow(pg.totalPages, page)))
    else None
  }

  /** On the middle page of nine, the buttons are 1, 4, 5, 6 and 9, with
      ellipses before 4 and before 9. */
  lemma MiddleOfNine()
    ensures PageWindow(9, 5) == [1, 4, 5, 6, 9]
    ensures EllipsisBefore([1, 4, 5, 6, 9], 1) && EllipsisBefore([1, 4, 5, 6, 9], 4)
    ensures !EllipsisBefore([1, 4, 5, 6, 9], 2) && !EllipsisBefore([1, 4, 5, 6, 9], 3)
  {
    assert ShownUpTo(3, 9, 5) == [1] by {
      assert ShownUpTo(1, 9, 5) == [1];
      assert ShownUpTo(2, 9, 5) == [1];
    }
    assert ShownUpTo(6, 9, 5) == [1, 4, 5, 6] by {
      assert ShownUpTo(4, 9, 5) == [1, 4];
      assert ShownUpTo(5, 9, 5) == [1, 4, 5];
    }
    assert ShownUpTo(8, 9, 5) == [1, 4, 5, 6] by {
      assert ShownUpTo(7, 9, 5) == [1, 4, 5, 6];
    }
  }

  /** The page the client asks for and the delete confirmation dialog. */
  class Page {
    var page: int
    var isOpen: bool
    var userId: Option<string>
    var userName: Option<string>

    constructor ()
      ensures page == 1 && !isOpen && userId == None && userName == None
    {
      page := 1;
      isOpen := false;
      userId := None;
      userName := None;
    }

    /** `handlePageChange(newPage)`; the scroll is left out. */
    method HandlePageChange(newPage: int)
      modifies this
      ensures page == newPage
      ensures isOpen == old(isOpen) && userId == old(userId) && userName == old(userName)
    {
      page := newPage;
    }

    /** `handleDeleteClick(userId, userName)`: open the dialog on a user. */
    method HandleDeleteClick(id: string, name: string)
      modifies this
      ensures isOpen && userId == Some(id) && userName == Some(name) && page == old(page)
    {
      isOpen, userId, userName := true, Some(id), Some(name);
    }

    /** The dialog's `onClose`. */
    method CloseDialog()
      modifies this
      ensures !isOpen && userId == None && userName == None && page == old(page)
    {
      isOpen, userId, userName := false, None, None;
    }

    /** `handleDeleteConfirm()`, where `deleteOk` says whether the delete
        call succeeds; returns the id it asked to delete. Without a
        non-empty id it does nothing; a success closes and clears the
        dialog; a failure leaves it as it was. */
    method HandleDeleteConfirm(deleteOk: bool) returns (deleted: Option<string>)
      modifies this
      ensures deleted == (if Truthy(old(userId)) then old(userId) else None)
      ensures deleted.Some? && deleteOk ==> !isOpen && userId == None && userName == None
      ensures deleted.None? || !deleteOk ==>
        isOpen == old(isOpen) && userId == old(userId) && userName == old(userName)
      ensures page == old(page)
    {
      if !Truthy(userId) {
        return None;
      }
      deleted := userId;
      if deleteOk {
        isOpen, userId, userName := false, None, None;
      }
    }
  }

  /** Clicking delete on a user and confirming sends that user's id; when
      the call fails the dialog stays open on the same user. */
  method DeleteFailsThenRetry(id: string, name: string) returns (first: Option<string>, second: Option<string>, openAfter: bool)
    requires id != ""
    ensures first == Some(id) && second == Some(id) && !openAfter
  {
    var dashboard := new Page();
    dashboard.HandleDeleteClick(id, name);
    first := dashboard.HandleDeleteConfirm(false);
    second := dashboard.HandleDeleteConfirm(true);
    openAfter := dashboard.isOpen;
  }
}
