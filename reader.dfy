/**
 * The manga reader page (src/pages/manga-episode/index.js): the list of
 * fetched episodes, the active episode, the active page number, the
 * reading style and the loading flag, with one method per event handler.
 * The selection tests that the page evaluates inline (the `Find` lookup,
 * the page-number range check, the saturating page steps, the render
 * choice) are pure functions, and the class's methods are specified by them.
 */
module MangaEpisode {
  import opened Wrappers

  datatype Page = Page(filename: string)

  /** One episode record as the backend returns it. */
  datatype Episode = Episode(
    id: Option<int>,
    mangaName: string,
    mangaCover: string,
    episodeName: string,
    episodeNumber: string,
    pages: seq<Page>)

  /** The initial `activeEpisodeData`: no id, empty episode number, no pages. */
  const Blank: Episode := Episode(None, "", "", "", "", [])

  /** What the fetch of the episode list yields: an exception, or a response. */
  datatype FetchResult = Threw | Response(status: int, data: seq<Episode>)

  /** The three views the page renders. */
  datatype View = Loading | NoData | HasData

  /** What the image area shows inside the has-data view. */
  datatype ImagePanel = SelectEpisodeWarning | SinglePage(index: int) | AllPages

  /** The address the page writes back: slug, episode number and page number. */
  datatype Address = Address(slug: string, episodeNumber: string, page: int)

  const PageByPage: string := "pagebypage"
  const Webtoon: string := "webtoon"

  // ---------------------------------------------------------------------
  // Pure selection logic
  // ---------------------------------------------------------------------

  /** `Find(list, { episode_number: n })`: the index of the first episode with number `n`. */
  function FindEpisode(eps: seq<Episode>, n: string): (r: Option<nat>)
    ensures r.Some? ==> r.value < |eps| && eps[r.value].episodeNumber == n
    ensures r.Some? ==> forall j :: 0 <= j < r.value ==> eps[j].episodeNumber != n
    ensures r.None? ==> forall j :: 0 <= j < |eps| ==> eps[j].episodeNumber != n
  {
    if eps == [] then None
    else if eps[0].episodeNumber == n then Some(0)
    else match FindEpisode(eps[1..], n)
      case None => None
      case Some(i) => Some(i + 1)
  }

  /** An episode counts as selected when its number is non-empty (JavaScript truthiness). */
  predicate IsSelected(e: Episode) {
    e.episodeNumber != ""
  }

  /** `e` is the episode that `Find` returns for `e`'s own number. */
  predicate IsFirstMatch(eps: seq<Episode>, e: Episode) {
    var r := FindEpisode(eps, e.episodeNumber);
    r.Some? && eps[r.value] == e
  }

  /** The response is used only if it did not throw, has status 200 and a non-empty list. */
  predicate FetchOk(f: FetchResult) {
    f.Response? && !(|f.data| == 0 || f.status != 200)
  }

  /** The episode seeded from the address: only a non-empty requested number is looked up. */
  function SeedEpisode(data: seq<Episode>, requested: Option<string>): (r: Option<nat>)
    ensures r.Some? ==> requested.Some? && requested.value != ""
    ensures r.Some? ==> r.value < |data| && data[r.value].episodeNumber == requested.value
    ensures r.Some? ==> forall j :: 0 <= j < r.value ==> data[j].episodeNumber != requested.value
    ensures r.None? <==>
      (requested.None? || requested.value == "" ||
       forall j :: 0 <= j < |data| ==> data[j].episodeNumber != requested.value)
  {
    if requested.Some? && requested.value != "" then FindEpisode(data, requested.value) else None
  }

  /**
   * The page-number range check on load: the requested page is taken only
   * when it lies in 1..count; otherwise the prior page is kept.
   */
  function SeedPage(requested: Option<int>, count: int, prior: int): (r: int)
    ensures r == prior || Some(r) == requested
    ensures requested.Some? && 1 <= requested.value <= count ==> r == requested.value
    ensures r != prior ==> 1 <= r <= count
    ensures 1 <= prior <= count ==> 1 <= r <= count
  {
    if requested.Some? && requested.value <= count && requested.value >= 1 then requested.value
    else prior
  }

  /** The previous-page step: it stays at 1 and does not wrap. */
  function PrevPage(p: int): (r: int)
    ensures r == p || r == p - 1
    ensures r == p <==> p == 1
    ensures 1 <= p ==> 1 <= r
  {
    if p == 1 then 1 else p - 1
  }

  /** The next-page step: it stays at the last page and does not wrap. */
  function NextPage(p: int, count: int): (r: int)
    ensures r == p || r == p + 1
    ensures r == p <==> p == count
    ensures p <= count ==> r <= count
  {
    if p == count then p else p + 1
  }

  /** The reading-style toggle: "pagebypage" becomes "webtoon", anything else "pagebypage". */
  function ToggleStyle(style: string): (r: string)
    ensures r == Webtoon <==> style == PageByPage
    ensures r == PageByPage <==> style != PageByPage
  {
    if style == PageByPage then Webtoon else PageByPage
  }

  /** The render choice: has-data only when loaded with a non-empty list. */
  function ViewOf(loading: bool, episodes: seq<Episode>): (v: View)
    ensures v == HasData <==> !loading && |episodes| != 0
    ensures v == NoData <==> !loading && |episodes| == 0
    ensures v == Loading <==> loading
  {
    if !loading && |episodes| != 0 then HasData
    else if !loading then NoData
    else Loading
  }

  /** The image area: a warning without a selected episode, else one page or all pages. */
  function PanelOf(active: Episode, page: int, style: string): (r: ImagePanel)
    ensures r == SelectEpisodeWarning <==> !IsSelected(active)
    ensures r.SinglePage? <==> IsSelected(active) && style == PageByPage
    ensures r.SinglePage? ==> r.index == page - 1
    ensures r == AllPages <==> IsSelected(active) && style != PageByPage
  {
    if IsSelected(active) then
      if style == PageByPage then SinglePage(page - 1) else AllPages
    else SelectEpisodeWarning
  }

  /**
   * Whether the reader view renders the previous-page overlay: the image
   * area shows a single page (an episode is selected, page-by-page mode)
   * and the overlay's own test, page not 1, holds. That is exactly when
   * clicking it would move the page back.
   */
  function PrevOffered(active: Episode, page: int, style: string): (offered: bool)
    ensures offered <==> PanelOf(active, page, style).SinglePage? && PrevPage(page) != page
    ensures offered ==> PrevPage(page) == page - 1
  {
    IsSelected(active) && style == PageByPage && page != 1
  }

  /**
   * Whether the reader view renders the next-page overlay: a single page is
   * shown and the overlay's own test, page not the last one, holds. That is
   * exactly when clicking it would move the page on.
   */
  function NextOffered(active: Episode, page: int, style: string): (offered: bool)
    ensures offered <==> PanelOf(active, page, style).SinglePage? && NextPage(page, |active.pages|) != page
    ensures offered ==> NextPage(page, |active.pages|) == page + 1
  {
    IsSelected(active) && style == PageByPage && page != |active.pages|
  }

  // ---------------------------------------------------------------------
  // Repeated navigation
  // ---------------------------------------------------------------------

  function Min(a: int, b: int): int { if a <= b then a else b }
  function Max(a: int, b: int): int { if a >= b then a else b }

  /** The page after `k` clicks on the next-page control. */
  function NextTimes(p: int, count: int, k: nat): int
    decreases k
  {
    if k == 0 then p else NextTimes(NextPage(p, count), count, k - 1)
  }

  /** The page after `k` clicks on the previous-page control. */
  function PrevTimes(p: int, k: nat): int
    decreases k
  {
    if k == 0 then p else PrevTimes(PrevPage(p), k - 1)
  }

  /** Clicking next `k` times from a valid page saturates at the last page. */
  lemma {:induction false} NextTimesSaturates(p: int, count: int, k: nat)
    requires 1 <= p <= count
    ensures NextTimes(p, count, k) == Min(p + k, count)
    decreases k
  {
    if k > 0 {
      NextTimesSaturates(NextPage(p, count), count, k - 1);
    }
  }

  /** Clicking previous `k` times from a valid page saturates at page 1. */
  lemma {:induction false} PrevTimesSaturates(p: int, k: nat)
    requires 1 <= p
    ensures PrevTimes(p, k) == Max(p - k, 1)
    decreases k
  {
    if k > 0 {
      PrevTimesSaturates(PrevPage(p), k - 1);
    }
  }

  // ---------------------------------------------------------------------
  // Address round trip
  // ---------------------------------------------------------------------

  /**
   * Loading the page afresh at the address written for a selection gives
   * the same selection back, for an episode that `Find` returns and a page
   * within its page list.
   */
  lemma AddressRoundTrip(eps: seq<Episode>, e: Episode, page: int)
    requires IsFirstMatch(eps, e) && IsSelected(e)
    requires 1 <= page <= |e.pages|
    ensures SeedEpisode(eps, Some(e.episodeNumber)).Some?
    ensures eps[SeedEpisode(eps, Some(e.episodeNumber)).value] == e
    ensures SeedPage(Some(page), |e.pages|, 1) == page
  {
  }

  /**
   * The worked scenario: episodes 1 (three pages) and 2 (two pages), an
   * address asking for page 5 of episode 2, which selects episode 2 at page 1.
   */
  lemma OutOfRangePageFallsBack(a: Page, b: Page, c: Page, d: Page, e: Page)
    ensures var eps := [Episode(None, "m", "", "", "1", [a, b, c]), Episode(None, "m", "", "", "2", [d, e])];
      var i := SeedEpisode(eps, Some("2"));
      i == Some(1) && SeedPage(Some(5), |eps[i.value].pages|, 1) == 1
  {
    var eps := [Episode(None, "m", "", "", "1", [a, b, c]), Episode(None, "m", "", "", "2", [d, e])];
    assert eps[0].episodeNumber != "2";
    assert eps[1..][0].episodeNumber == "2";
    assert FindEpisode(eps[1..], "2") == Some(0);
  }

  // ---------------------------------------------------------------------
  // The page's state
  // ---------------------------------------------------------------------

  class ReaderPage {
    /** The manga slug from the route. */
    const slug: string
    var loading: bool
    var mangaName: string
    var mangaCover: string
    /** `episodeData`: the fetched list, empty until a usable response arrives. */
    var episodes: seq<Episode>
    /** `activeEpisodeData`. */
    var active: Episode
    /** `activePageNumber`, 1-based. */
    var page: int
    /** `settings.readingStyle`, shared with the settings context. */
    var readingStyle: string
    /** The address last written by the address-sync effect. */
    ghost var address: Address

    /**
     * The page number is at least 1 and, for an episode with pages, within
     * its page list; the active episode is the blank record or the one
     * `Find` returns for its number; nothing is selected while loading; and
     * the address reflects the selection.
     */
    ghost predicate Valid()
      reads this
    {
      && 1 <= page
      && (|active.pages| > 0 ==> page <= |active.pages|)
      && (active == Blank || IsFirstMatch(episodes, active))
      && (loading ==> episodes == [] && active == Blank && page == 1)
      && address == Address(slug, active.episodeNumber, page)
    }

    /** Whether the active record is a selected episode. */
    predicate Selected()
      reads this
    {
      IsSelected(active)
    }

    function ViewState(): View
      reads this
    {
      ViewOf(loading, episodes)
    }

    function Panel(): ImagePanel
      reads this
    {
      PanelOf(active, page, readingStyle)
    }

    /** The page mounts: loading, nothing fetched, page 1, the stored reading style. */
    constructor (slug: string, readingStyle: string)
      ensures Valid()
      ensures this.slug == slug && this.readingStyle == readingStyle
      ensures loading && episodes == [] && active == Blank && page == 1
      ensures mangaName == "" && mangaCover == ""
      ensures ViewState() == Loading
    {
      this.slug := slug;
      this.readingStyle := readingStyle;
      loading := true;
      mangaName, mangaCover := "", "";
      episodes := [];
      active := Blank;
      page := 1;
      address := Address(slug, "", 1);
    }

    /**
     * `fetchData` once the fetch has finished. A thrown request, an empty
     * list or a status other than 200 leaves the list empty and ends
     * loading. Otherwise the list is kept, the manga name and cover come
     * from its first episode, and the episode and page requested by the
     * address are selected when they pass the lookup and the range check.
     */
    method FinishLoad(f: FetchResult, requestedEpisode: Option<string>, requestedPage: Option<int>)
      requires Valid() && loading
      modifies this
      ensures Valid() && !loading
      ensures readingStyle == old(readingStyle)
      ensures !FetchOk(f) ==>
        episodes == [] && active == Blank && page == 1 &&
        mangaName == old(mangaName) && mangaCover == old(mangaCover)
      ensures FetchOk(f) ==>
        episodes == f.data && mangaName == f.data[0].mangaName && mangaCover == f.data[0].mangaCover
      ensures FetchOk(f) && SeedEpisode(f.data, requestedEpisode).None? ==>
        active == Blank && page == 1
      ensures FetchOk(f) && SeedEpisode(f.data, requestedEpisode).Some? ==>
        var i := SeedEpisode(f.data, requestedEpisode).value;
        active == f.data[i] && page == SeedPage(requestedPage, |f.data[i].pages|, 1)
      ensures ViewState() == (if FetchOk(f) then HasData else NoData)
    {
      if f.Threw? {
        loading := false;
        return;
      }
      if |f.data| == 0 || f.status != 200 {
        loading := false;
        return;
      }
      mangaName := f.data[0].mangaName;
      mangaCover := f.data[0].mangaCover;
      if requestedEpisode.Some? && requestedEpisode.value != "" {
        var found := FindEpisode(f.data, requestedEpisode.value);
        if found.Some? {
          var e := f.data[found.value];
          active := e;
          page := SeedPage(requestedPage, |e.pages|, page);
        }
      }
      episodes := f.data;
      loading := false;
      address := Address(slug, active.episodeNumber, page);
    }

    /** `handleChange`: select the episode the menu names and go back to page 1. */
    method SelectEpisode(n: string)
      requires Valid() && !loading
      requires FindEpisode(episodes, n).Some?
      modifies this`active, this`page, this`address
      ensures Valid()
      ensures active == episodes[FindEpisode(episodes, n).value] && active.episodeNumber == n
      ensures page == 1
      ensures address == Address(slug, n, 1)
    {
      page := 1;
      var i := FindEpisode(episodes, n);
      active := episodes[i.value];
      address := Address(slug, active.episodeNumber, page);
    }

    /** `handleNavigateBeforeButton`, wired only to an overlay of a selected episode. */
    method NavigateBefore()
      requires Valid() && Selected()
      modifies this`page, this`address
      ensures Valid()
      ensures page == PrevPage(old(page))
      ensures address == Address(slug, active.episodeNumber, page)
    {
      page := if page == 1 then 1 else page - 1;
      address := Address(slug, active.episodeNumber, page);
    }

    /** `handleNavigateNextButton`, wired only to an overlay of a selected episode. */
    method NavigateNext()
      requires Valid() && Selected()
      modifies this`page, this`address
      ensures Valid()
      ensures page == NextPage(old(page), |active.pages|)
      ensures address == Address(slug, active.episodeNumber, page)
    {
      page := if page == |active.pages| then page else page + 1;
      address := Address(slug, active.episodeNumber, page);
    }

    /** `handleReadingStyleChangeButton`: the selection is left as it is. */
    method ToggleReadingStyle()
      requires Valid()
      modifies this`readingStyle
      ensures Valid()
      ensures readingStyle == ToggleStyle(old(readingStyle))
      ensures active == old(active) && page == old(page)
    {
      if readingStyle == PageByPage {
        readingStyle := Webtoon;
      } else {
        readingStyle := PageByPage;
      }
    }

    /** In a valid state the image shown page by page is within the episode's pages. */
    lemma SinglePageInBounds()
      requires Valid() && Panel().SinglePage? && |active.pages| > 0
      ensures 0 <= Panel().index < |active.pages|
    {
    }

    /** The address written for a selected page reloads to the same selection. */
    lemma AddressReloads()
      requires Valid() && Selected() && |active.pages| > 0
      ensures SeedEpisode(episodes, Some(address.episodeNumber)).Some?
      ensures episodes[SeedEpisode(episodes, Some(address.episodeNumber)).value] == active
      ensures SeedPage(Some(address.page), |active.pages|, 1) == page
    {
      AddressRoundTrip(episodes, active, page);
    }
  }

  /** Toggling twice restores exactly the two known styles. */
  lemma ToggleTwice(style: string)
    ensures ToggleStyle(ToggleStyle(style)) == style <==> style == PageByPage || style == Webtoon
  {
  }
}
