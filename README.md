# WraithWatchers sightings dashboard — Dafny model

This project models the client-side logic of the WraithWatchers dashboard, a Next.js app that shows
crowd-sourced ghost sightings. It covers three pages and components:

- **The overview page** (`app/page.tsx`, module `Dashboard`, with `Statistics`, `Sorting`, `Strings`,
  `Seqs`). At load it keeps only the rows whose latitude and longitude are both truthy. The filter
  effect narrows the store by US state and by apparition tag; the value `"all"` switches a filter
  off. `calculateStats` computes the stats cards:
  - the total;
  - the date of the most recent sighting and how many days ago it was;
  - the most frequent `"city, state"` key, split back into city and state on `", "`.

  The page also builds the sorted option lists for the two selects and shows the first 50 rows of
  the table, plus a notice when rows are hidden. The page state is the class `Dashboard.Home`.
- **The map** (`app/components/SightingsMap.tsx`, module `SightingsMap`). It shows a prefix of at
  most 500 records as markers and fits the viewport only when there is something to show. A
  "Showing 500 of n" notice appears when records were left out.
- **The submission form** (`app/post-sighting/page.tsx`, module `PostSighting`). The state is four
  text fields, a position picked by clicking the map, and `isSubmitting`. A submit without a
  position raises an alert. Otherwise the form is marked as submitting; after a simulated delay the
  sighting is logged and the page navigates to `/thank-you`. The class `PostSightingPage` holds the
  state. Each of its methods is tied to a step function `Step`, and the lemmas about runs of events
  are stated over `Step`.

Modelling choices:

- A record's date is its display string `date` plus `dateMs`, the timestamp `new Date(date)`
  parses it to. The current time is a parameter `now`. The day count is floor division by
  86 400 000. Dafny's `/` rounds down for a positive divisor, like `Math.floor`, so a future date
  gives a negative count.
- Coordinates are a `Cell` (`Empty`, `Number`, `Text`), so the JavaScript truthiness test is
  explicit: `0`, `null` and `''` are dropped; a non-numeric text is kept.
- `Array.prototype.sort` with a comparator is stable. `Sorting.SortDesc` is that stable
  descending sort, written as an insertion sort. The most recent record is therefore the first
  record with the latest date. The most ghostly key is the first key in the counting object's
  insertion order among those with the largest count. Object keys keep insertion order here because
  every key contains `", "` and so is never integer-like.
- The counting object of the `reduce` is modelled as its key list in insertion order plus a map
  from key to count (`Statistics.CountCities`).
- `const [city, state] = key.split(', ')` gives `undefined` for a missing second piece. That
  renders as nothing, so the model uses `""`. `Strings.SplitJoin` shows that this case never
  arises for a key built as `${city}, ${state}`. The split gives back the city and state exactly
  when neither contains `", "`. Otherwise the city is cut at its first `", "`, and two different
  (city, state) pairs can share one count.
- A state or tag whose value is literally `"all"` cannot be filtered on, because that value
  switches the filter off. The model keeps this behaviour.
- `handleSubmit` awaits a timer and then uses the `formData` and `position` it captured when it was
  called. The model keeps the waiting submits in `pending`, each holding the form and position
  captured at the press. `DelayElapsed` runs the code after the `await` for the earliest one.
  `alert`, `console.log` and `router.push` are recorded in `alerts`, `log` and `navigations`.
- The submit button is `disabled={isSubmitting}`, so a press while submitting does nothing.
  `Step` and `PostSightingPage.PressSubmit` model that guard.
- `handleSubmit` checks only the position. The other fields rely on the browser's `required`
  attribute, which is left out.
- The stable sorts fix the tie-breaks: the earliest record, or the key inserted first, wins.

## Model

| member | source | states |
|---|---|---|
| `Dashboard.LocatedSpec` | app/page.tsx:34-36 | load keeps exactly the rows with both coordinates truthy (so a 0 coordinate is dropped), every occurrence of them, in their original order |
| `Dashboard.Home.constructor` | app/page.tsx:19-24 | the page starts with an empty store and view, no stats, loading, and both selections `"all"` |
| `Dashboard.Home.LoadComplete` | app/page.tsx:33-40 | the store becomes the located rows, loading ends, and the view and stats are those of the current selections at the given time |
| `Dashboard.Home.FilterEffect` | app/page.tsx:46-59 | `filteredSightings` becomes the view for the current selections and `stats` the stats of that view; store and selections unchanged |
| `Dashboard.Home.SelectState` | app/page.tsx:161-164 | the state selection is replaced and the view and stats follow it |
| `Dashboard.Home.SelectType` | app/page.tsx:177-180 | the type selection is replaced and the view and stats follow it |
| `Dashboard.ViewAll` | app/page.tsx:47-55 | with both selections `"all"` the view is the whole store |
| `Dashboard.ViewSpec` | app/page.tsx:47-55 | the view is an order-preserving subsequence of the store holding every occurrence of each record that matches both selections (a selection of `"all"` matching everything) and nothing else |
| `Dashboard.StateOptions` | app/page.tsx:95 | the state options are strictly ascending (no duplicates) and are exactly the states present in the unfiltered store |
| `Dashboard.TypeOptions` | app/page.tsx:96 | the type options are strictly ascending and are exactly the tags present in the unfiltered store |
| `Dashboard.Home.UniqueStates` | app/page.tsx:95 | the page's state options come from the whole store, whatever is selected |
| `Dashboard.Home.UniqueTypes` | app/page.tsx:96 | the page's type options come from the whole store, whatever is selected |
| `Dashboard.TableSpec` | app/page.tsx:210-226 | the table shows the first min(50, n) records of the view in order; the notice appears exactly when rows were left out and reports n |
| `Strings.SortedUnique` | app/page.tsx:95-96 | `Array.from(new Set(values)).sort()` is strictly ascending and holds exactly the values given |
| `Strings.StrictlySortedUnique` | app/page.tsx:95-96 | two strictly ascending lists with the same elements are equal, so the option list depends only on which values occur |
| `Strings.LessTransitive` | app/page.tsx:95-96 | the default sort order on strings is transitive |
| `Strings.LessTotal` | app/page.tsx:95-96 | any two different strings are ordered one way or the other |
| `Statistics.CalculateStats` | app/page.tsx:61-93 | the stats are absent exactly for an empty view; otherwise the total is the view's length and the result is `StatsOf` |
| `Statistics.CountCities` | app/page.tsx:77-81 | the reduce builds one key per distinct `"city, state"` in first-occurrence order, each mapped to the number of records with that key |
| `Statistics.KeysInOrderMembership` | app/page.tsx:77-81 | the counting object holds exactly the keys of the records |
| `Statistics.CountKeyPositive` | app/page.tsx:79 | a key's count is positive exactly when the object holds it |
| `Statistics.CountsSumToTotal` | app/page.tsx:77-81 | the counts of all keys add up to the number of records |
| `Statistics.DaysAgo` | app/page.tsx:72-74 | the day count is the floor of the elapsed time in days: count·86400000 ≤ now − date < (count+1)·86400000, negative for a future date |
| `Statistics.MostRecentIsLatest` | app/page.tsx:67-74 | the most recent date is the date of a record whose timestamp is ≥ every record's and > every earlier record's (the stable sort's head), and the day count is measured from it |
| `Statistics.MostGhostlyIsMostFrequent` | app/page.tsx:76-84 | the shown city and state are the split of a key with the largest count, and among tied keys of the one whose first record comes first |
| `Statistics.MostGhostlyExact` | app/page.tsx:76-91 | when no city or state contains `", "`, the card shows exactly the city and state of a record with the most frequent key, ties going to the earliest |
| `Sorting.SortDesc` | app/page.tsx:68-70 | the comparator sort yields a permutation of its input ordered by descending key |
| `Sorting.SortDescHead` | app/page.tsx:68-71 | the head of the stable descending sort is the first element with the largest key |
| `Sorting.FirstMaxIndex` | app/page.tsx:83 | the index picked holds the largest key and every earlier index holds a strictly smaller one |
| `Strings.FindSep` | app/page.tsx:84 | the place where `split(', ')` makes its first cut is the first separator in the string, and there is none exactly when the string contains no separator |
| `Strings.Split` | app/page.tsx:84 | `split(', ')` yields at least one piece, and the first piece is the whole string exactly when it contains no separator |
| `Strings.SplitJoin` | app/page.tsx:78-84 | splitting `${city}, ${state}` gives two pieces, which are the original city and state exactly when neither contains `", "`; otherwise the city is cut at its first `", "` |
| `SightingsMap.RenderSpec` | app/components/SightingsMap.tsx:27-91 | one marker per displayed record, in order, at its coordinates, for the first min(500, n) records; the fit is skipped exactly for an empty list and otherwise covers exactly the marker positions; the notice appears exactly when records were left out and reports n |
| `SightingsMap.TruncatedRecordsIgnored` | app/components/SightingsMap.tsx:40-58 | records past the first 500 change neither the fitted bounds nor the markers |
| `SightingsMap.PopupImageSpec` | app/components/SightingsMap.tsx:76-83 | a popup carries an image exactly when the record's link is non-empty, and then that link |
| `PostSighting.PostSightingPage.constructor` | app/post-sighting/page.tsx:41-48 | the form starts with four empty fields, no position, not submitting, and no alert, log or navigation |
| `PostSighting.PostSightingPage.HandleInputChange` | app/post-sighting/page.tsx:70-75 | an input change is the step `InputChanged` on the page state |
| `PostSighting.InputChangeSpec` | app/post-sighting/page.tsx:70-75 | an input change sets the named field to the value and leaves the other three fields and the rest of the state unchanged |
| `PostSighting.PostSightingPage.OnMapClick` | app/post-sighting/page.tsx:31-33 | a map click is the step `Clicked` on the page state |
| `PostSighting.InitialNoMarker` | app/post-sighting/page.tsx:36-47 | the form opens with no position, so `LocationMarker` renders no marker |
| `PostSighting.MapClickSpec` | app/post-sighting/page.tsx:31-36 | a click replaces the position with the click's coordinates, whatever it was, and `LocationMarker` then renders its marker there; nothing else changes |
| `PostSighting.PostSightingPage.HandleSubmit` | app/post-sighting/page.tsx:50-58 | the submit handler up to its `await` is the step `Submitted` |
| `PostSighting.PostSightingPage.ResumeSubmit` | app/post-sighting/page.tsx:61-67 | after the delay, the earliest waiting submit is logged and the page navigates to `/thank-you` |
| `PostSighting.PostSightingPage.PressSubmit` | app/post-sighting/page.tsx:193-199 | a press of the button does nothing while submitting and otherwise runs the handler; afterwards the form is submitting iff it was or a position was set |
| `PostSighting.SubmitSpec` | app/post-sighting/page.tsx:50-58 | a submit without a position only adds the alert; with one it sets `isSubmitting` and queues the current form and position |
| `PostSighting.NoPositionNoSubmit` | app/post-sighting/page.tsx:53-56 | without a map click no sequence of events shows a marker, submits, logs or navigates |
| `PostSighting.SubmittingIsFinal` | app/post-sighting/page.tsx:58-67 | once submitting, the form stays submitting after any events: there is no way back to editing |
| `PostSighting.NavigatesAtMostOnce` | app/post-sighting/page.tsx:58-67 | from the initial state, any sequence of events navigates at most once and only to `/thank-you`, logging one sighting per navigation |
| `PostSighting.RunKeepsInv` | app/post-sighting/page.tsx:50-67 | every run keeps the form either editing with nothing waiting or sent, or submitting with exactly one submit waiting or navigated |
| `PostSighting.SubmitLogsFormAtPress` | app/post-sighting/page.tsx:50-67 | submit, then any edits, then the delay: the log gets the form and position as they were at the press, and the page navigates to `/thank-you` exactly once |

## Left out

- Fetching the CSV and parsing it with PapaParse (`app/page.tsx:27-43`). The model starts from the
  parsed rows. PapaParse's conversion of `true`/`false` and ISO dates in coordinate cells is not
  modelled.
- The text columns (date, city, state, notes, time, tag, image link) are modelled as the strings
  that app/types/sighting.ts declares. With dynamic typing, an empty cell becomes `null` and a
  numeric-looking cell becomes a number. Neither case is modelled. For example, an empty city gives
  the key `"null, CA"` in the code but `", CA"` in the model.
- Parsing date strings with `new Date(...)` and reading the clock. Each record carries its parsed
  timestamp `dateMs`, and `now` is a parameter. Dates that parse to `NaN` are not modelled.
- Statistics.DaysAgo: uses exact integer division. JavaScript divides doubles; the two agree for
  any realistic range of millisecond timestamps.
- Strings.Less: compares Unicode code points. JavaScript's default sort compares UTF-16 code units;
  the two differ only for characters outside the Basic Multilingual Plane.
- Sorting.SortDesc: stability is stated only through `SortDescHead`, which gives the element the
  code reads. Equal keys are not stated to keep their order in general.
- CSV export through `Papa.unparse`, a Blob and an object URL (`app/page.tsx:236-242`): an
  external library and browser APIs.
- Leaflet: icons, tiles, `L.latLngBounds` geometry, the `fitBounds` padding, popups, and the
  image `onError` handler. The model records which points are passed to the fit and which markers
  and popups are produced.
- `toLocaleString` and `toFixed(6)` display formatting, and all other JSX and CSS.
- The timing of the one-second `setTimeout`, and unmounting after navigation. The delay is an
  event, `Timeout`, that may arrive at any point.
- The browser's `required` checks on the form inputs.
- The loading screen, React's re-render scheduling, and Strict Mode running effects twice.
- app/components/Navbar.tsx, app/components/Footer.tsx and app/thank-you/page.tsx: presentation
  only.
