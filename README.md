# Manga reader navigation and release labels, in Dafny

This project models two parts of a fansub site's front end.

- The manga reader page (`src/pages/manga-episode/index.js`). It holds the fetched
  episode list, the active episode, the active page number, the reading style
  ("pagebypage" or "webtoon"), the loading flag and the address it writes back. It has
  one handler per user action. The page renders one of three views: loading, no data,
  or the reader itself.
- The release-list helpers (`src/components/ceviriler/components.js`). `episodeParser`
  formats an episode label in one of three forms: batch, special type, or ordinary
  numbered. `getIcon` maps six credit/metadata keys to icons and every other key to
  `false`.

`wrappers.dfy` holds `Option`. `labels.dfy` holds module `CreditLabels`. `reader.dfy`
holds module `MangaEpisode`. That module has the pure selection logic (the `Find`
lookup, the page range check, the saturating page steps, the toggle and the render
choice) and the class `ReaderPage`, whose methods are specified by that logic.
`ReaderPage.Valid()` is the page's invariant:

- the page number is at least 1;
- for an episode with pages, the page number is at most the number of pages;
- the active episode is either the blank initial record or the episode `Find` returns
  for its own number;
- nothing is selected while loading;
- the ghost address equals `(slug, episode number, page)`.

Inputs from outside the page are parameters:

- the fetch outcome (`FetchResult`: it threw, or a status and a list);
- the route's requested episode and page;
- the slug;
- the stored reading style.

## Model

| member | source | states |
|---|---|---|
| `CreditLabels.GetIcon` | src/components/ceviriler/components.js:14-31 | a key gets an icon exactly when it is one of the six table keys (translator, encoder, editor, genres, time, studio), and then it gets that key's table icon; every other key gets `None` (the source's `false`) |
| `CreditLabels.IconKeysAreDistinct` | src/components/ceviriler/components.js:15-29 | the table has exactly six distinct keys, so at most one case matches a key and the switch order cannot change the result; no two keys share an icon, a fact about the icon enumeration of this model |
| `CreditLabels.UpperChar` | src/components/ceviriler/components.js:187 | lower-case ASCII letters map to their upper-case letter; every other character is unchanged |
| `CreditLabels.Upper` | src/components/ceviriler/components.js:187 | upper-casing keeps the length and maps each character by `UpperChar` |
| `CreditLabels.KindOf` | src/components/ceviriler/components.js:183-189 | the three label forms partition the inputs: batch iff the type is "toplu"; special iff the type is truthy and not "toplu"; numbered iff the type is absent or empty |
| `CreditLabels.EpisodeParser` | src/components/ceviriler/components.js:182-190 | the label is never empty. It is "TOPLU LİNK" for a batch. For a special type it is the upper-cased type, then a space, then the number. Otherwise it is the number followed by ". Bölüm" |
| `CreditLabels.BatchIgnoresNumber` | src/components/ceviriler/components.js:183-184 | the batch label is the same whatever the episode number |
| `CreditLabels.LabelDeterminesNumber` | src/components/ceviriler/components.js:186-189 | outside the batch form, two episode numbers with the same special type give the same label only if the numbers are equal |
| `CreditLabels.NumberedLabelRoundTrip` | src/components/ceviriler/components.js:189 | cutting ". Bölüm" off an ordinary label gives back the episode number |
| `MangaEpisode.FindEpisode` | src/pages/manga-episode/index.js:74-75 | the result is the index of the FIRST episode with the requested number; `None` only when no episode has that number |
| `MangaEpisode.SeedEpisode` | src/pages/manga-episode/index.js:73-77 | an episode is seeded on load only for a present, non-empty requested number that matches an episode, and then it is the FIRST episode with that number; otherwise nothing is selected |
| `MangaEpisode.SeedPage` | src/pages/manga-episode/index.js:80-82 | the requested page is taken iff it lies in 1..number of pages; otherwise the prior page is kept; a prior page in range stays in range |
| `MangaEpisode.PrevPage` | src/pages/manga-episode/index.js:107-111 | the page stays put exactly at page 1 and otherwise drops by exactly one; it never goes below 1 |
| `MangaEpisode.NextPage` | src/pages/manga-episode/index.js:113-117 | the page stays put exactly at the last page and otherwise rises by exactly one; it never passes the last page |
| `MangaEpisode.ToggleStyle` | src/pages/manga-episode/index.js:119-123 | "pagebypage" becomes "webtoon"; every other value becomes "pagebypage" |
| `MangaEpisode.ToggleTwice` | src/pages/manga-episode/index.js:119-123 | toggling twice gives back the original style exactly when it is "pagebypage" or "webtoon" |
| `MangaEpisode.ViewOf` | src/pages/manga-episode/index.js:133-274 | the reader view is rendered iff loading is over and the list is non-empty; no-data iff loading is over and the list is empty; the spinner iff still loading |
| `MangaEpisode.PanelOf` | src/pages/manga-episode/index.js:199-243 | the "please select an episode" warning appears iff no episode number is set; otherwise page-by-page mode shows the single image at index page − 1 and the other mode shows all pages |
| `MangaEpisode.PrevOffered` | src/pages/manga-episode/index.js:199-216 | in the reader view, the previous-page overlay is rendered iff the image area shows a single page (an episode is selected, page-by-page mode) and clicking would change the page; then the click moves back by exactly one |
| `MangaEpisode.NextOffered` | src/pages/manga-episode/index.js:199-221 | in the reader view, the next-page overlay is rendered iff the image area shows a single page (an episode is selected, page-by-page mode) and clicking would change the page; then the click moves on by exactly one |
| `MangaEpisode.NextTimesSaturates` | src/pages/manga-episode/index.js:113-117 | k clicks on next from a valid page end at min(page + k, last page): the page saturates and does not wrap, and repeating at the end changes nothing |
| `MangaEpisode.PrevTimesSaturates` | src/pages/manga-episode/index.js:107-111 | k clicks on previous from a valid page end at max(page − k, 1) |
| `MangaEpisode.AddressRoundTrip` | src/pages/manga-episode/index.js:73-99 | loading afresh at the address written for a selection selects the same episode and the same page, provided `Find` returns that episode and the page is in range |
| `MangaEpisode.OutOfRangePageFallsBack` | src/pages/manga-episode/index.js:73-82 | episodes 1 (three pages) and 2 (two pages) with an address asking for episode 2, page 5 select episode 2 at page 1 |
| `MangaEpisode.ReaderPage.constructor` | src/pages/manga-episode/index.js:25-43 | a new page is loading, with no episodes, the blank active record, page 1, empty manga name and cover, and the stored reading style |
| `MangaEpisode.ReaderPage.FinishLoad` | src/pages/manga-episode/index.js:50-88 | loading ends in every case. Its contract splits on `FetchOk`, the test at line 63 together with the `catch` at lines 59-61. If the fetch threw, returned an empty list or returned a status other than 200, the list stays empty, nothing is selected and the no-data view follows. Otherwise the list is kept, the name and cover come from its first episode, and the seeded episode and page become active |
| `MangaEpisode.ReaderPage.SelectEpisode` | src/pages/manga-episode/index.js:101-105 | the episode `Find` returns for the menu value becomes active, the page resets to 1, the address is rewritten and the invariant holds |
| `MangaEpisode.ReaderPage.NavigateBefore` | src/pages/manga-episode/index.js:107-111 | the page becomes `PrevPage` of the old page, the episode is unchanged, the address is rewritten and the invariant holds |
| `MangaEpisode.ReaderPage.NavigateNext` | src/pages/manga-episode/index.js:113-117 | the page becomes `NextPage` of the old page against the episode's page count, the episode is unchanged, the address is rewritten and the invariant holds |
| `MangaEpisode.ReaderPage.ToggleReadingStyle` | src/pages/manga-episode/index.js:119-123 | the style becomes `ToggleStyle` of the old style; the episode and the page do not change |
| `MangaEpisode.ReaderPage.SinglePageInBounds` | src/pages/manga-episode/index.js:205 | in any valid state of an episode with pages, the image index page − 1 is within the page list |
| `MangaEpisode.ReaderPage.AddressReloads` | src/pages/manga-episode/index.js:93-99 | in a valid state with an episode selected, the address the page holds loads back to the same episode and page |

## Left out

- Network access is an input. `getDataFromAPI` and the request behind it are not
  modelled; `FinishLoad` receives the outcome as a thrown-or-response value.
- The effect at src/pages/manga-episode/index.js:47-91 has no cleanup, so the source
  never discards a response that arrives after the page unmounts. The model has no
  unmounting.
- Browser effects are reduced to a ghost `address` (slug, episode number, page), which
  every selection or page change reassigns. `window.history.replaceState` and the
  route builder `mangaEpisodePage` are not modelled. Neither is the analytics call
  (`ReactGA.pageview`).
- `handleCenteringPage` needs DOM layout (`clientHeight`, `scrollTo`) and is not modelled.
- Coercions are left out. Route parameters are not parsed from strings: the requested
  page is an `Option<int>`, so `Number(...)` and string-vs-number comparison are gone.
- Episode numbers are modelled as strings. This is an assumption about the backend.
  `Find` with a one-key object compares with strict equality. If the backend sent
  numbers, the lookups at lines 74 and 103 would never match the string route value or
  the string menu value.
- `ReaderPage.SelectEpisode` requires the menu value to match an episode. The menu
  offers only values from the list. The crash `handleChange` would hit for an unknown
  value is not modelled.
- An episode with no pages stays at page 1 after selection. When rendering page by
  page, the source then evaluates `activeEpisodeData.pages[0].filename` (line 205).
  `pages[0]` is undefined, so this throws a TypeError and the render crashes. The crash
  is not modelled; for such an episode the invariant bounds the page only from below.
- `CreditLabels.Upper`: upper-cases ASCII letters only. JavaScript's full Unicode
  mapping (Turkish letters among them) has no counterpart here.
- `CreditLabels.GetIcon`: the icons are an enumeration. The image modules they come
  from are not part of this model.
- The merge `{...state, ...newData}` at lines 77 and 104 is modelled as replacing the
  active record. This assumes that every list record carries every field of the
  active record. When a list record lacks `id` or `episode_name`, the source keeps the
  old active record's value; `id` is read at line 157. The model's `Episode` has no
  `credits` or `created_by` fields (lines 36-37).
- `ReaderPage.NavigateBefore` and `ReaderPage.NavigateNext` require a selected episode,
  as the overlays that call them are rendered only then. The model still allows calls
  in webtoon mode and at page 1 (previous) or the last page (next), where the overlays
  are not rendered. There the handlers' own saturating branches apply.
- `MangaEpisode.ReaderPage.FinishLoad`: on the failure paths the model keeps the manga
  name and cover at "". In the source, lines 53-55 replace the whole `mangaData` object
  with one holding only the slug, so both become undefined. The no-data view reads
  neither.
- Left out as markup, styling or library code: `mangaData`'s slug bookkeeping, the
  metadata tags, the comment widget, i18n strings and all styled components.

## Notes on the code

- On load, an out-of-range requested page keeps the prior page (line 81). That page is
  1 at load (line 42).
- An unknown menu value makes `Find` return undefined in `handleChange`. Reading
  `newData.pages` then crashes (line 104).
- A status other than 200 gives the no-data view even when the list is non-empty
  (line 63).
