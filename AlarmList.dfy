/**
 * The notification history screen: a list filled page by page from a
 * server. A fetch is guarded by the loading and "more data" flags and
 * asks for a zero-based page of ten; an empty page ends the list and a
 * failed request changes nothing. The server's answer is an input.
 */
module AlarmList {
  import opened JsText

  const PAGE_SIZE: int := 10

  /** One entry of the history, as rendered: a title and a message. */
  datatype Notice = Notice(title: string, message: string)

  /** The query parameters of the GET request. */
  datatype PageRequest = PageRequest(page: int, size: int)

  /** What the awaited request gives: the response's data, or a rejected promise. */
  datatype Response = Items(data: seq<Notice>) | RequestFailed

  /** The four state variables of the screen. */
  datatype Feed = Feed(listData: seq<Notice>, page: int, isLoading: bool, hasMoreData: bool)

  function Initial(): Feed {
    Feed([], 1, false, true)
  }

  /** fetchData up to the await: the guard, then the loading flag and the request. */
  function StartFetch(f: Feed): (Feed, Option<PageRequest>) {
    if f.isLoading || !f.hasMoreData then (f, None)
    else (f.(isLoading := true), Some(PageRequest(f.page - 1, PAGE_SIZE)))
  }

  /** The rest of fetchData once the request settles, through the finally block. */
  function Complete(f: Feed, r: Response): Feed {
    var settled := match r
      case Items(d) =>
        if |d| > 0 then f.(listData := f.listData + d, page := f.page + 1)
        else f.(hasMoreData := false)
      case RequestFailed => f;
    settled.(isLoading := false)
  }

  /** fetchData called when nothing is loading, answered by `r` if it made a request. */
  function Round(f: Feed, r: Response): Feed {
    var (g, request) := StartFetch(f);
    if request.Some? then Complete(g, r) else g
  }

  /** The screen after one fetch per response, answered in turn, from the first render. */
  function Rounds(rs: seq<Response>): Feed
    decreases |rs|
  {
    if rs == [] then Initial() else Round(Rounds(rs[..|rs| - 1]), rs[|rs| - 1])
  }

  /** Index of the first empty page among the responses, or their number when there is none. */
  function FirstEnd(rs: seq<Response>): (k: nat)
    ensures k <= |rs|
    ensures forall j :: 0 <= j < k ==> rs[j] != Items([])
    ensures k < |rs| ==> rs[k] == Items([])
    decreases |rs|
  {
    if rs == [] then 0
    else
      var k := FirstEnd(rs[..|rs| - 1]);
      assert forall j :: 0 <= j < k ==> rs[j] == rs[..|rs| - 1][j];
      if k < |rs| - 1 then k
      else if rs[|rs| - 1] == Items([]) then |rs| - 1
      else |rs|
  }

  /** The non-empty pages among the responses, in order. */
  function Delivered(rs: seq<Response>): seq<seq<Notice>>
    decreases |rs|
  {
    if rs == [] then []
    else
      var last := rs[|rs| - 1];
      Delivered(rs[..|rs| - 1]) + (if last.Items? && |last.data| > 0 then [last.data] else [])
  }

  function Flatten(pages: seq<seq<Notice>>): seq<Notice>
    decreases |pages|
  {
    if pages == [] then [] else Flatten(pages[..|pages| - 1]) + pages[|pages| - 1]
  }

  /** A fetch while loading or after the end does nothing and sends no request. */
  lemma FetchGuard(f: Feed)
    ensures f.isLoading || !f.hasMoreData ==> StartFetch(f) == (f, None)
    ensures !f.isLoading && f.hasMoreData ==>
      StartFetch(f) == (f.(isLoading := true), Some(PageRequest(f.page - 1, 10)))
  {
  }

  /**
   * A non-empty page is appended and advances the page; an empty page ends
   * the data and changes neither list nor page; a failure changes none of
   * the three. The loading flag is cleared in every case.
   */
  lemma CompleteEffects(f: Feed, r: Response)
    ensures r.Items? && |r.data| > 0 ==>
      Complete(f, r) == Feed(f.listData + r.data, f.page + 1, false, f.hasMoreData)
    ensures r == Items([]) ==> Complete(f, r) == Feed(f.listData, f.page, false, false)
    ensures r.RequestFailed? ==> Complete(f, r) == f.(isLoading := false)
    ensures !Complete(f, r).isLoading
  {
  }

  /**
   * The list is the concatenation of the non-empty pages received before
   * the first empty one, the page counter is one more than their number,
   * the list has ended exactly when an empty page came, and nothing is
   * loading.
   */
  predicate DeliversPages(rs: seq<Response>) {
    var f := Rounds(rs);
    var live := rs[..FirstEnd(rs)];
    f.listData == Flatten(Delivered(live)) &&
    f.page == 1 + |Delivered(live)| &&
    (f.hasMoreData <==> Items([]) !in rs) &&
    !f.isLoading
  }

  /** Once an empty page has come, a further fetch sends nothing and changes nothing. */
  lemma RoundAfterEnd(prev: seq<Response>, last: Response)
    requires DeliversPages(prev) && Items([]) in prev
    ensures DeliversPages(prev + [last])
  {
    var rs := prev + [last];
    assert rs[..|rs| - 1] == prev;
    var k := FirstEnd(prev);
    assert k < |prev|;
    assert FirstEnd(rs) == k;
    assert rs[..k] == prev[..k];
    assert Rounds(rs) == Rounds(prev);
  }

  /** The first empty page ends the list and keeps the list and the page. */
  lemma RoundAtEnd(prev: seq<Response>)
    requires DeliversPages(prev) && Items([]) !in prev
    ensures DeliversPages(prev + [Items([])])
  {
    var rs := prev + [Items([])];
    assert rs[..|rs| - 1] == prev;
    assert rs[|rs| - 1] == Items([]);
    assert FirstEnd(prev) == |prev| && prev[..|prev|] == prev;
    assert FirstEnd(rs) == |prev|;
    assert rs[..|prev|] == prev;
    assert Items([]) in rs;
  }

  /** Before the end, a non-empty page is appended as one more page and a failure adds none. */
  lemma RoundBeforeEnd(prev: seq<Response>, last: Response)
    requires DeliversPages(prev) && Items([]) !in prev && last != Items([])
    ensures DeliversPages(prev + [last])
  {
    var rs := prev + [last];
    assert rs[..|rs| - 1] == prev;
    assert rs[|rs| - 1] == last;
    assert FirstEnd(prev) == |prev| && prev[..|prev|] == prev;
    assert FirstEnd(rs) == |rs|;
    assert rs[..|rs|] == rs;
    assert Items([]) !in rs;
    var ps := Delivered(prev);
    if last.Items? && |last.data| > 0 {
      assert Delivered(rs) == ps + [last.data];
      assert (ps + [last.data])[..|ps|] == ps;
    } else {
      assert Delivered(rs) == ps;
    }
  }

  /** After any sequence of answered fetches from the first render, DeliversPages holds. */
  lemma {:induction false} RoundsDeliverPages(rs: seq<Response>)
    ensures DeliversPages(rs)
    decreases |rs|
  {
    if rs == [] {
      assert rs[..0] == [];
    } else {
      var prev := rs[..|rs| - 1];
      var last := rs[|rs| - 1];
      RoundsDeliverPages(prev);
      assert rs == prev + [last];
      if Items([]) in prev {
        RoundAfterEnd(prev, last);
      } else if last == Items([]) {
        RoundAtEnd(prev);
      } else {
        RoundBeforeEnd(prev, last);
      }
    }
  }

  /** While the list has not ended, the next request asks for page `n` (zero-based) after n pages. */
  lemma NextRequestCountsPages(rs: seq<Response>)
    requires Items([]) !in rs
    ensures StartFetch(Rounds(rs)).1 == Some(PageRequest(|Delivered(rs)|, PAGE_SIZE))
  {
    RoundsDeliverPages(rs);
    assert FirstEnd(rs) == |rs|;
    assert rs[..|rs|] == rs;
  }

  /** The screen component with its state variables. */
  class AlarmListScreen {
    var listData: seq<Notice>
    var page: int
    var isLoading: bool
    var hasMoreData: bool

    function State(): Feed
      reads this
    {
      Feed(listData, page, isLoading, hasMoreData)
    }

    constructor ()
      ensures State() == Initial()
    {
      listData := [];
      page := 1;
      isLoading := false;
      hasMoreData := true;
    }

    /** fetchData up to the await; returns the request it sends, if any. */
    method FetchData() returns (request: Option<PageRequest>)
      modifies this
      ensures (State(), request) == StartFetch(old(State()))
    {
      if isLoading || !hasMoreData {
        return None;
      }
      isLoading := true;
      request := Some(PageRequest(page - 1, PAGE_SIZE));
    }

    /** The continuation after the request settles. */
    method OnResponse(response: Response)
      requires isLoading
      modifies this
      ensures State() == Complete(old(State()), response)
    {
      match response {
        case Items(newData) =>
          if |newData| > 0 {
            listData := listData + newData;
            page := page + 1;
          } else {
            hasMoreData := false;
          }
        case RequestFailed =>
      }
      isLoading := false;
    }

    /** handleLoadMore repeats fetchData's own guard. */
    method HandleLoadMore() returns (request: Option<PageRequest>)
      modifies this
      ensures (State(), request) == StartFetch(old(State()))
    {
      request := None;
      if !isLoading && hasMoreData {
        request := FetchData();
      }
    }
  }
}
