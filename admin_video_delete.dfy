/** The administrators' problem table with delete buttons: the pagination record
    and its defaults, row numbering, the page-button window with its ellipses,
    page changes, delete-then-step-back, and the error view. */
module AdminVideoDelete {
  import opened Js

  datatype ListedProblem = ListedProblem(id: Option<string>, title: string, difficulty: Option<string>, tags: Option<string>)

  datatype Pagination = Pagination(currentPage: int, totalPages: int, totalItems: int, itemsPerPage: int)

  const InitialPagination: Pagination := Pagination(1, 1, 0, 10)

  /** The body of one page of the list. */
  datatype PageBody = PageBody(data: Option<seq<ListedProblem>>, page: Option<int>, totalPages: Option<int>,
                               total: Option<int>, count: Option<int>)

  /** The record read from a page body, each field with its `||` default. */
  function PaginationOf(body: PageBody): (p: Pagination)
    ensures p.currentPage != 0 && p.totalPages != 0 && p.itemsPerPage != 0
    ensures body.page.None? && body.totalPages.None? && body.total.None? && body.count.None? ==> p == InitialPagination
    ensures (body.page.Some? && body.page.value != 0 ==> p.currentPage == body.page.value)
            && (body.page.None? || body.page.value == 0 ==> p.currentPage == 1)
    ensures (body.totalPages.Some? && body.totalPages.value != 0 ==> p.totalPages == body.totalPages.value)
            && (body.totalPages.None? || body.totalPages.value == 0 ==> p.totalPages == 1)
    ensures (body.total.Some? && body.total.value != 0 ==> p.totalItems == body.total.value)
            && (body.total.None? || body.total.value == 0 ==> p.totalItems == 0)
    ensures (body.count.Some? && body.count.value != 0 ==> p.itemsPerPage == body.count.value)
            && (body.count.None? || body.count.value == 0 ==> p.itemsPerPage == 10)
  {
    Pagination(NumberOr(body.page, 1), NumberOr(body.totalPages, 1), NumberOr(body.total, 0), NumberOr(body.count, 10))
  }

  /** The page body a server would send for a pagination record. */
  function BodyOfPagination(rows: seq<ListedProblem>, p: Pagination): PageBody {
    PageBody(Some(rows), Some(p.currentPage), Some(p.totalPages), Some(p.totalItems), Some(p.itemsPerPage))
  }

  /** Reading the record back loses nothing whenever the page, the page count and the page size
      are not 0, the values the `||` defaults replace. */
  lemma PaginationRoundTrip(rows: seq<ListedProblem>, p: Pagination)
    requires p.currentPage != 0 && p.totalPages != 0 && p.itemsPerPage != 0
    ensures PaginationOf(BodyOfPagination(rows, p)) == p
  {
  }

  // ------------------------------------------------------------ rows

  /** The number in the first column of row `index`: counted across pages of `itemsPerPage` rows. */
  function RowNumber(p: Pagination, index: int): (n: int)
    ensures p.currentPage >= 1 && p.itemsPerPage >= 1 && index >= 0 ==> n >= 1
  {
    (p.currentPage - 1) * p.itemsPerPage + index + 1
  }

  /** Numbering carries on from one page to the next without a gap or an overlap. */
  lemma RowNumbersContinueAcrossPages(p: Pagination)
    ensures RowNumber(p, p.itemsPerPage - 1) + 1 == RowNumber(p.(currentPage := p.currentPage + 1), 0)
  {
  }

  /** Rows of one page get distinct, increasing numbers. */
  lemma RowNumbersIncrease(p: Pagination, i: int, j: int)
    requires i < j
    ensures RowNumber(p, i) < RowNumber(p, j)
  {
  }

  // ------------------------------------------------------------ the page window

  datatype PageSlot = PageButton | Ellipsis | NoSlot

  /** What is drawn for page `page`: a button for the first, the last, and the pages next to the
      current one; an ellipsis two pages away from it; nothing otherwise. */
  function SlotOf(page: int, current: int, total: int): (slot: PageSlot)
    ensures slot.PageButton? <==> page == 1 || page == total || (current - 1 <= page <= current + 1)
    ensures slot.Ellipsis? <==> !slot.PageButton? && (page == current - 2 || page == current + 2)
  {
    if page == 1 || page == total || (page >= current - 1 && page <= current + 1) then PageButton
    else if page == current - 2 || page == current + 2 then Ellipsis
    else NoSlot
  }

  /** The row of page controls for pages 1 to `total`. */
  function PageWindow(current: int, total: nat): (w: seq<PageSlot>)
    ensures |w| == total
    ensures forall i :: 0 <= i < total ==> w[i] == SlotOf(i + 1, current, total)
  {
    seq(total, i requires 0 <= i < total => SlotOf(i + 1, current, total))
  }

  function CountEllipses(w: seq<PageSlot>): (n: nat)
    ensures n <= |w|
    decreases |w|
  {
    if |w| == 0 then 0 else (if w[|w| - 1].Ellipsis? then 1 else 0) + CountEllipses(w[..|w| - 1])
  }

  /** Ellipses that can stand only at positions a and b number at most the positions that exist. */
  lemma {:induction false} EllipsesOnlyAt(w: seq<PageSlot>, a: int, b: int)
    requires forall i :: 0 <= i < |w| && w[i].Ellipsis? ==> i == a || i == b
    ensures CountEllipses(w) <= (if 0 <= a < |w| then 1 else 0) + (if 0 <= b < |w| && b != a then 1 else 0)
    decreases |w|
  {
    if |w| > 0 {
      var front := w[..|w| - 1];
      assert forall i :: 0 <= i < |front| ==> front[i] == w[i];
      EllipsesOnlyAt(front, a, b);
    }
  }

  /** However many pages there are, at most two ellipses are drawn. */
  lemma AtMostTwoEllipses(current: int, total: nat)
    ensures CountEllipses(PageWindow(current, total)) <= 2
  {
    var w := PageWindow(current, total);
    assert forall i :: 0 <= i < |w| && w[i].Ellipsis? ==> i == current - 3 || i == current + 1;
    EllipsesOnlyAt(w, current - 3, current + 1);
  }

  /** The first page, the last page and the current page always have a button. */
  lemma EndsAndCurrentAreButtons(current: int, total: nat)
    requires 1 <= current <= total
    ensures PageWindow(current, total)[0].PageButton?
    ensures PageWindow(current, total)[total - 1].PageButton?
    ensures PageWindow(current, total)[current - 1].PageButton?
  {
  }

  /** A page three or more away from the current one, and not at either end, is not drawn at all. */
  lemma FarPagesHidden(current: int, total: nat, page: int)
    requires 1 < page < total && (page <= current - 3 || page >= current + 3)
    ensures PageWindow(current, total)[page - 1].NoSlot?
  {
  }

  /** The controls appear only when there is more than one page. */
  predicate ShowControls(p: Pagination) { p.totalPages > 1 }
  predicate PreviousDisabled(p: Pagination) { p.currentPage == 1 }
  predicate NextDisabled(p: Pagination) { p.currentPage == p.totalPages }

  /** `handlePageChange`'s guard. */
  predicate PageInRange(p: Pagination, newPage: int) {
    1 <= newPage <= p.totalPages
  }

  /** On a page within range, an enabled Previous or Next button always asks for a page the guard
      accepts, and every drawn page button does too. */
  lemma EnabledControlsPassGuard(p: Pagination, page: int)
    requires 1 <= p.currentPage <= p.totalPages
    ensures !PreviousDisabled(p) ==> PageInRange(p, p.currentPage - 1)
    ensures !NextDisabled(p) ==> PageInRange(p, p.currentPage + 1)
    ensures 1 <= page <= p.totalPages && SlotOf(page, p.currentPage, p.totalPages).PageButton? ==> PageInRange(p, page)
  {
  }

  // ------------------------------------------------------------ errors

  /** What a failed delete carries: no response, a response without a body, or a body with `error`. */
  datatype ErrorPayload = NoResponse | ResponseWithoutData | ResponseData(error: Option<string>)

  /** The value the `error` state holds: the fetch's own text, or the delete's error object. */
  datatype PageError = FetchFailed(text: string) | DeleteFailed(payload: ErrorPayload, message: Option<string>)

  /** How the error view renders: a crash (a TypeError thrown while rendering) or the text shown,
      `None` when the expression is undefined. */
  datatype Render = Crash | Shown(text: Option<string>)

  /** The view as written reads `error.response.data.error` whatever `error` holds. */
  function ErrorViewAsWritten(e: PageError): (r: Render)
    ensures e.FetchFailed? ==> r == Crash
    ensures r.Shown? <==> e.DeleteFailed? && e.payload.ResponseData?
  {
    match e
    case FetchFailed(_) => Crash
    case DeleteFailed(NoResponse, _) => Crash
    case DeleteFailed(ResponseWithoutData, _) => Crash
    case DeleteFailed(ResponseData(err), _) => Shown(err)
  }

  /** A failed page load, which stores the string 'Failed to fetch problems', makes the view throw. */
  lemma FetchFailureCrashesView()
    ensures ErrorViewAsWritten(FetchFailed("Failed to fetch problems")) == Crash
  {
  }

  /** The evident intent: show a string error as it is, and a request error's `error` field, its
      message, or a fixed text, without ever throwing. */
  function ErrorView(e: PageError): (text: string)
    ensures text != ""
    ensures e.FetchFailed? && e.text != "" ==> text == e.text
    ensures ErrorViewAsWritten(e).Shown? && Truthy(ErrorViewAsWritten(e).text) ==> text == ErrorViewAsWritten(e).text.value
  {
    match e
    case FetchFailed(t) => if t != "" then t else "Failed to fetch problems"
    case DeleteFailed(payload, message) =>
      var fromBody := if payload.ResponseData? then payload.error else None;
      FirstTruthy([fromBody, message], "Failed to delete problem")
  }

  // ------------------------------------------------------------ the page

  /** The outcome of the delete request. */
  datatype DeleteOutcome = Deleted | DeleteRejected(payload: ErrorPayload, message: Option<string>)

  class ProblemTable {
    var problems: seq<ListedProblem>
    var loading: bool
    var error: Option<PageError>
    var pagination: Pagination

    constructor ()
      ensures problems == [] && loading && error.None? && pagination == InitialPagination
    {
      problems := [];
      loading := true;
      error := None;
      pagination := InitialPagination;
    }

    /** `fetchProblems(page)`: a body replaces the list and the record; a failure keeps both and sets
        the error. */
    method FetchProblems(page: int, resp: NetResult<PageBody>)
      modifies this`problems, this`pagination, this`error, this`loading
      ensures !loading
      ensures resp.Ok? ==> problems == resp.data.data.GetOr([]) && pagination == PaginationOf(resp.data)
                           && error == old(error)
      ensures resp.Err? ==> problems == old(problems) && pagination == old(pagination)
                            && error == Some(FetchFailed("Failed to fetch problems"))
    {
      loading := true;
      match resp {
        case Ok(body) =>
          problems := body.data.GetOr([]);
          pagination := PaginationOf(body);
        case Err(_) =>
          error := Some(FetchFailed("Failed to fetch problems"));
      }
      loading := false;
    }

    /** `handlePageChange`: a page outside 1..totalPages is ignored. */
    method HandlePageChange(newPage: int, resp: NetResult<PageBody>) returns (requested: Option<int>)
      modifies this`problems, this`pagination, this`error, this`loading
      ensures requested.Some? <==> PageInRange(old(pagination), newPage)
      ensures requested.Some? ==> requested.value == newPage
      ensures requested.None? ==> problems == old(problems) && pagination == old(pagination)
                                  && error == old(error) && loading == old(loading)
      ensures requested.Some? && resp.Ok? ==>
                problems == resp.data.data.GetOr([]) && pagination == PaginationOf(resp.data)
                && error == old(error) && !loading
      ensures requested.Some? && resp.Err? ==>
                problems == old(problems) && pagination == old(pagination)
                && error == Some(FetchFailed("Failed to fetch problems")) && !loading
    {
      if newPage >= 1 && newPage <= pagination.totalPages {
        FetchProblems(newPage, resp);
        requested := Some(newPage);
      } else {
        requested := None;
      }
    }

    /** `handleDelete`: after a confirmed, successful delete the rows with that id are gone and the
        rest keep their order; when the page held a single row and is not the first, the previous
        page is loaded instead. */
    method HandleDelete(id: Option<string>, confirmed: bool, outcome: DeleteOutcome, previous: NetResult<PageBody>)
      returns (requested: Option<int>)
      modifies this`problems, this`pagination, this`error, this`loading
      ensures !confirmed ==> requested.None? && problems == old(problems) && pagination == old(pagination)
                             && error == old(error) && loading == old(loading)
      ensures confirmed && outcome.DeleteRejected? ==>
                requested.None? && problems == old(problems) && pagination == old(pagination)
                && error == Some(DeleteFailed(outcome.payload, outcome.message)) && loading == old(loading)
      ensures confirmed && outcome.Deleted? && !(|old(problems)| == 1 && old(pagination).currentPage > 1) ==>
                requested.None? && pagination == old(pagination) && error == old(error) && loading == old(loading)
                && problems == Filter((p: ListedProblem) => p.id != id, old(problems))
                && (forall p :: p in problems <==> p in old(problems) && p.id != id)
                && IsSubsequence(problems, old(problems))
      ensures confirmed && outcome.Deleted? && |old(problems)| == 1 && old(pagination).currentPage > 1 ==>
                requested == Some(old(pagination).currentPage - 1) && !loading
                && (previous.Ok? ==> problems == previous.data.data.GetOr([]) && pagination == PaginationOf(previous.data)
                                     && error == old(error))
                && (previous.Err? ==> problems == Filter((p: ListedProblem) => p.id != id, old(problems))
                                      && pagination == old(pagination)
                                      && error == Some(FetchFailed("Failed to fetch problems")))
    {
      requested := None;
      if !confirmed {
        return;
      }
      match outcome {
        case Deleted =>
          var before := problems;
          problems := Filter((p: ListedProblem) => p.id != id, before);
          if |before| == 1 && pagination.currentPage > 1 {
            requested := Some(pagination.currentPage - 1);
            FetchProblems(pagination.currentPage - 1, previous);
          }
        case DeleteRejected(payload, message) =>
          error := Some(DeleteFailed(payload, message));
      }
    }
  }
}
