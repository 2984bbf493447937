/**
 * The nearby hospitals and pharmacies screen: a list filled page by page
 * from eleven fixed entries. A fetch is guarded by the loading and
 * "more data" flags, starts a timer, and the timer's callback appends the
 * next page. The timer is modelled as a separate event.
 */
module NearbyFacilities {
  import opened JsText

  const TOTAL_DATA_COUNT: int := 11
  const PAGE_SIZE: int := 10

  datatype Facility = Facility(name: string, address: string, distance: nat, isOperating: bool)

  /** The list the timer callback pages through. */
  const DUMMY_DATA: seq<Facility> := [
    Facility("역삼 종은병원", "테헤란로 7길 7", 512, true),
    Facility("역삼 럭키병원", "테헤란로 7길 54", 1000, true),
    Facility("강남 제일병원", "테헤란로 8길 12", 1500, true),
    Facility("강남역 참사랑병원", "생각대로 132", 2300, false),
    Facility("성모병원 신논현", "압구정동 219", 3100, false),
    Facility("오은영 약국", "금쪽이로 1050", 3300, true),
    Facility("강남 세브란스병원", "언주로 211", 2800, true),
    Facility("365열린약국", "강남대로 390", 750, true),
    Facility("미래약국", "테헤란로 152", 1200, false),
    Facility("연세사랑병원", "봉은사로 118", 1800, true),
    Facility("굿모닝 약국", "삼성로 212", 2500, false)
  ]

  /** The four state variables of the screen. */
  datatype Pager = Pager(listData: seq<Facility>, page: int, isLoading: bool, hasMoreData: bool)

  function Initial(): Pager {
    Pager([], 1, false, true)
  }

  /** The synchronous part of fetchData: the guard, then the loading flag is set and the timer started. */
  function StartFetch(p: Pager): Pager {
    if p.isLoading || !p.hasMoreData then p else p.(isLoading := true)
  }

  /** `remaining >= PAGE_SIZE ? PAGE_SIZE : remaining` with remaining = TOTAL_DATA_COUNT - loaded. */
  function LoadItemCount(loaded: nat): int {
    var remaining := TOTAL_DATA_COUNT - loaded;
    if remaining >= PAGE_SIZE then PAGE_SIZE else remaining
  }

  /** The timer callback of fetchData. */
  function FinishFetch(p: Pager): Pager {
    var loadItemCount := LoadItemCount(|p.listData|);
    var grown := if loadItemCount > 0
      then p.(listData := p.listData + Slice(DUMMY_DATA, (p.page - 1) * PAGE_SIZE, p.page * PAGE_SIZE),
              page := p.page + 1)
      else p;
    var ended := if |p.listData| + loadItemCount >= TOTAL_DATA_COUNT then grown.(hasMoreData := false) else grown;
    ended.(isLoading := false)
  }

  /** Calls of fetchData (on mount and from handleLoadMore) and firings of its timer. */
  datatype Event = FetchCalled | TimerFired

  /** A timer fires only after a fetch started it, and then the screen is loading. */
  function Step(p: Pager, e: Event): Pager {
    match e
    case FetchCalled => StartFetch(p)
    case TimerFired => if p.isLoading then FinishFetch(p) else p
  }

  function Run(p: Pager, es: seq<Event>): Pager
    decreases |es|
  {
    if es == [] then p else Step(Run(p, es[..|es| - 1]), es[|es| - 1])
  }

  /** How many entries are loaded once the page counter reaches `page`. */
  function LoadedFor(page: int): nat {
    if page <= 1 then 0 else if (page - 1) * PAGE_SIZE <= TOTAL_DATA_COUNT then (page - 1) * PAGE_SIZE else TOTAL_DATA_COUNT
  }

  /**
   * The list is the first min((page-1)*PAGE_SIZE, TOTAL_DATA_COUNT) entries,
   * more data remains exactly while fewer than all are loaded, and a load
   * is only in progress while more data remains.
   */
  predicate Inv(p: Pager) {
    1 <= p.page <= 3 &&
    p.listData == DUMMY_DATA[..LoadedFor(p.page)] &&
    (p.hasMoreData <==> |p.listData| < TOTAL_DATA_COUNT) &&
    (p.isLoading ==> p.hasMoreData)
  }

  /** A fetch while loading or after the end does nothing; otherwise it only sets the loading flag. */
  lemma FetchGuard(p: Pager)
    ensures p.isLoading || !p.hasMoreData ==> StartFetch(p) == p
    ensures !p.isLoading && p.hasMoreData ==> StartFetch(p) == p.(isLoading := true)
  {
  }

  /**
   * The timer callback loads min(PAGE_SIZE, remaining) entries: it appends
   * the page's slice and advances the page only when that count is
   * positive, ends the data exactly when everything would then be loaded,
   * and always clears the loading flag.
   */
  lemma FinishFetchEffects(p: Pager)
    requires |p.listData| <= TOTAL_DATA_COUNT
    ensures var n := LoadItemCount(|p.listData|);
      n == (if PAGE_SIZE <= TOTAL_DATA_COUNT - |p.listData| then PAGE_SIZE else TOTAL_DATA_COUNT - |p.listData|) &&
      0 <= n <= PAGE_SIZE
    ensures LoadItemCount(|p.listData|) > 0 ==>
      FinishFetch(p).listData == p.listData + Slice(DUMMY_DATA, (p.page - 1) * PAGE_SIZE, p.page * PAGE_SIZE) &&
      FinishFetch(p).page == p.page + 1
    ensures LoadItemCount(|p.listData|) <= 0 ==>
      FinishFetch(p).listData == p.listData && FinishFetch(p).page == p.page
    ensures !FinishFetch(p).hasMoreData <==>
      !p.hasMoreData || |p.listData| + LoadItemCount(|p.listData|) >= TOTAL_DATA_COUNT
    ensures !FinishFetch(p).isLoading
  {
  }

  lemma InitialInv()
    ensures Inv(Initial())
  {
  }

  lemma StepKeepsInv(p: Pager, e: Event)
    requires Inv(p)
    ensures Inv(Step(p, e))
  {
    if e.TimerFired? && p.isLoading {
      if p.page == 1 {
        assert Slice(DUMMY_DATA, 0, 10) == DUMMY_DATA[..10];
      } else {
        assert p.page == 2;
        assert Slice(DUMMY_DATA, 10, 20) == DUMMY_DATA[10..11];
        assert DUMMY_DATA[..10] + DUMMY_DATA[10..11] == DUMMY_DATA[..11];
      }
    }
  }

  /**
   * Whatever the order of fetches and timer firings, the list is a prefix
   * of the eleven entries of length min((page-1)*PAGE_SIZE, TOTAL_DATA_COUNT):
   * never more than eleven are loaded.
   */
  lemma {:induction false} RunKeepsInv(es: seq<Event>)
    ensures Inv(Run(Initial(), es))
    ensures |Run(Initial(), es).listData| <= TOTAL_DATA_COUNT
    ensures Run(Initial(), es).listData == DUMMY_DATA[..|Run(Initial(), es).listData|]
    decreases |es|
  {
    if es == [] {
      InitialInv();
    } else {
      RunKeepsInv(es[..|es| - 1]);
      StepKeepsInv(Run(Initial(), es[..|es| - 1]), es[|es| - 1]);
    }
  }

  /** Ten entries come with the first fetch, then one with the second, and then loading ends. */
  lemma TwoFetchesLoadEverything()
    ensures FinishFetch(StartFetch(Initial())) == Pager(DUMMY_DATA[..10], 2, false, true)
    ensures FinishFetch(StartFetch(Pager(DUMMY_DATA[..10], 2, false, true))) == Pager(DUMMY_DATA, 3, false, false)
    ensures StartFetch(Pager(DUMMY_DATA, 3, false, false)) == Pager(DUMMY_DATA, 3, false, false)
  {
    assert Slice(DUMMY_DATA, 0, 10) == DUMMY_DATA[..10];
    assert Slice(DUMMY_DATA, 10, 20) == DUMMY_DATA[10..11];
    assert DUMMY_DATA[..10] + DUMMY_DATA[10..11] == DUMMY_DATA;
  }

  /** The distance text: whole metres with an "m", or the kilometres shown with toFixed(1) and "km". */
  datatype DistanceText = Metres(text: string) | Kilometres(km: real)

  function DistanceLabel(distance: nat): DistanceText {
    if distance >= 1000 then Kilometres(distance as real / 1000.0)
    else Metres(NatToString(distance) + "m")
  }

  /** Below 1000 the label is the decimal distance followed by "m"; from 1000 on it is kilometres. */
  lemma DistanceLabelReadsBack(distance: nat)
    ensures DistanceLabel(distance).Metres? <==> distance < 1000
    ensures distance < 1000 ==> var t := DistanceLabel(distance).text;
      |t| >= 2 && t[|t| - 1] == 'm' && AllDigits(t[..|t| - 1]) && DigitsValue(t[..|t| - 1]) == distance
    ensures distance >= 1000 ==> DistanceLabel(distance).km * 1000.0 == distance as real
  {
    if distance < 1000 {
      var t := DistanceLabel(distance).text;
      assert t[..|t| - 1] == NatToString(distance);
      NatToStringValue(distance);
    }
  }

  function StatusLabel(isOperating: bool): string {
    if isOperating then "영업중" else "영업종료"
  }

  lemma StatusLabelIff(f: Facility)
    ensures StatusLabel(f.isOperating) == "영업중" <==> f.isOperating
  {
  }

  /** The screen component with its state variables. */
  class NearbyMedicalFacilitiesScreen {
    var listData: seq<Facility>
    var page: int
    var isLoading: bool
    var hasMoreData: bool

    function State(): Pager
      reads this
    {
      Pager(listData, page, isLoading, hasMoreData)
    }

    constructor ()
      ensures State() == Initial()
    {
      listData := [];
      page := 1;
      isLoading := false;
      hasMoreData := true;
    }

    /** fetchData up to setTimeout; reports whether the timer was started. */
    method FetchData() returns (timerStarted: bool)
      modifies this
      ensures State() == StartFetch(old(State()))
      ensures timerStarted <==> !old(isLoading) && old(hasMoreData)
    {
      if isLoading || !hasMoreData {
        return false;
      }
      isLoading := true;
      return true;
    }

    /** The timer callback; the earlier listData and page are those it was started with. */
    method OnTimer()
      requires isLoading
      modifies this
      ensures State() == FinishFetch(old(State()))
    {
      var loaded := |listData|;
      var remainingDataCount := TOTAL_DATA_COUNT - loaded;
      var loadItemCount := if remainingDataCount >= PAGE_SIZE then PAGE_SIZE else remainingDataCount;
      if loadItemCount > 0 {
        var newPageData := Slice(DUMMY_DATA, (page - 1) * PAGE_SIZE, page * PAGE_SIZE);
        listData := listData + newPageData;
        page := page + 1;
      }
      if loaded + loadItemCount >= TOTAL_DATA_COUNT {
        hasMoreData := false;
      }
      isLoading := false;
    }

    /** handleLoadMore repeats fetchData's own guard. */
    method HandleLoadMore() returns (timerStarted: bool)
      modifies this
      ensures State() == StartFetch(old(State()))
      ensures timerStarted <==> !old(isLoading) && old(hasMoreData)
    {
      timerStarted := false;
      if !isLoading && hasMoreData {
        timerStarted := FetchData();
      }
    }
  }
}
