# Railway-Tracker: route-keyed train synthesis, search form and live feed

This project models the non-presentational logic of a mock railway-tracking
dashboard written in TypeScript/React, and proves properties of it in Dafny.

- **Index** (`src/pages/Index.tsx`). `getRouteData` looks up route metrics by the
  exact key `"<from> → <to>"` in a ten-entry table, with a fallback of
  `520 km` / `8h 30m`. `handleRouteSearch` takes the additive checksum of
  `from + "-" + to`. From it, it picks 4 to 6 contiguous trains from an
  18-entry catalog and derives, for train `i`, the status, delay, weather note,
  next station and times by modular arithmetic over fixed tables. It then
  replaces the page's two state fields, `currentRoute` and `trains`.
  The pure part is `Index.Synthesize`. The state is the class `Index.IndexPage`.
- **RouteSearch** (`src/components/RouteSearch.tsx`). The form's two fields,
  `fromStation` and `toStation`, belong to the class
  `RouteSearch.RouteSearchForm`. Its methods are the guarded search, the
  simultaneous swap, the two input setters and the popular-station click.
  Multi-step facts are stated about the value snapshot `RouteSearch.Form`.
- **LiveTracker** (`src/components/LiveTracker.tsx`). It holds the four-train
  initial feed and the tick, which raises a moving train's progress to
  `min(100, p + d)`. It also holds the badge label of each status and the
  panel state `liveTrains` (class `LiveTracker.LiveTrackerView`).
- **Decimal** holds the text conversions the page relies on: `String(n)` for
  a non-negative integer, `padStart(2, '0')`, `split('h')[0]` and `parseInt`.
  **Types** holds `Option` and `Route`.

Modelling choices:

- The checksum is the sum of UTF-16 code units, exactly as `split('')` and
  `charCodeAt` produce them. A character outside the Basic Multilingual Plane
  contributes both halves of its surrogate pair. On BMP text this equals the
  sum of code points (`Index.ChecksumOfBmpText`).
- Displayed times are kept as `Clock(hour, minute)` values. `Clock.Text`
  renders them with `Pad2`, which is `padStart(2, '0')`.
- `Math.random() * 5` is a parameter: one `d` with `0 <= d < 5` per train and
  per tick. Progress is an exact `real`.
- The `onSearch(from, to)` callback is modelled as the request that
  `HandleSearch` returns: `Some(Route(from, to))` or `None`.
- Each popular-station button is identified by its index into `PopularStations`.
- The JavaScript lookup `routes[routeKey] || default` is an exact-key map
  lookup. Every possible key contains `" → "`, so it can never name an
  inherited object property such as `constructor`. Every table value is a
  non-empty object and therefore truthy.
- `weatherConditions[k] || undefined` becomes an `Option`. The four messages
  are non-empty strings, so only the `null` slot becomes absent.

The metrics table has 10 keys formed from 5 city pairs, each listed in both
directions with identical values. That is why swapping the stations never
changes the metrics. The checksum of `from-to` is also that of `to-from`,
since a sum does not depend on the order of its terms. Together the two facts
make the whole synthesized train list independent of the order of the
stations.

## Model

| member | source | states |
|---|---|---|
| `Decimal.Show` | src/pages/Index.tsx:105-114 | `String(n)` is a non-empty digit string; it is one digit exactly when n < 10 and starts with '0' exactly when n = 0 |
| `Decimal.ValueOfShow` | src/pages/Index.tsx:105-114 | reading the digits of `String(n)` back gives n |
| `Decimal.ParseLeadingInt` | src/pages/Index.tsx:101 | `parseInt` is NaN (None) exactly when the string does not start with a digit |
| `Decimal.ParseShow` | src/pages/Index.tsx:101 | `parseInt` of `String(n)` followed by a non-digit returns n |
| `Decimal.BeforeFirst` | src/pages/Index.tsx:101 | `split(c)[0]` is a prefix without `c`, ending where the first `c` stands |
| `Decimal.Pad2` | src/pages/Index.tsx:105-106 | `padStart(2, '0')` puts one '0' before a one-digit number, keeps longer numbers whole and never truncates |
| `Index.RouteKey` | src/pages/Index.tsx:34 | the key is `${from} → ${to}`; its single arrow is located by `Index.RouteKeyArrow` and its unique splitting stated by `Index.RouteKeyInjective` |
| `Index.RouteKeyArrow` | src/pages/Index.tsx:34 | a key built from arrow-free stations holds exactly one '→', at the index just past the origin and its trailing blank |
| `Index.GetRouteData` | src/pages/Index.tsx:20-36 | the metrics are the default exactly when the exact `"from → to"` key is missing; otherwise they are the table's entry for that key |
| `Index.RouteKeyInjective` | src/pages/Index.tsx:34 | a key splits back uniquely into its two stations when the table side holds no arrow |
| `Index.ReverseKeyInRoutes` | src/pages/Index.tsx:21-32 | every table key has its reverse in the table, with identical metrics |
| `Index.RouteDataSymmetric` | src/pages/Index.tsx:20-35 | swapping from and to never changes the metrics, for all station strings |
| `Index.DelhiMumbaiMetrics` | src/pages/Index.tsx:22 | New Delhi (NDLS) to Mumbai Central (BCT) gives 1384 km / 15h 50m |
| `Index.UnknownRouteMetrics` | src/pages/Index.tsx:35 | an unknown pair (Foo, Bar) gives 520 km / 8h 30m |
| `Index.DurationHours` | src/pages/Index.tsx:101 | the hours of a duration are NaN exactly when the part before 'h' does not start with a digit |
| `Index.DurationHoursOfShow` | src/pages/Index.tsx:101 | a duration written `${n}h...` has n whole hours |
| `Index.MetricsHaveHours` | src/pages/Index.tsx:21-35 | every duration the lookup can return parses to 15, 27, 17, 21, 34 or 8 hours, never NaN |
| `Index.Utf16Units` | src/pages/Index.tsx:74 | a character is one code unit when below 0x10000, otherwise a high/low surrogate pair that decodes back to it |
| `Index.UnitSum` | src/pages/Index.tsx:74 | one character adds its own code inside the Basic Multilingual Plane, and never more than 0xDBFF + 0xDFFF |
| `Index.Checksum` | src/pages/Index.tsx:74 | the `reduce` sum includes every character's code units and is at most 0x1BBFE per character |
| `Index.ChecksumAppend` | src/pages/Index.tsx:74 | the additive checksum of a concatenation is the sum of the parts' checksums |
| `Index.ChecksumOfBmpText` | src/pages/Index.tsx:74 | on Basic Multilingual Plane text the checksum is the sum of the character ordinals |
| `Index.RouteHash` | src/pages/Index.tsx:44-74 | the checksum of `${from}-${to}` is the checksum of from, plus 45 for the hyphen, plus the checksum of to |
| `Index.RouteHashSymmetric` | src/pages/Index.tsx:44-74 | the checksum of `from-to` equals that of `to-from` |
| `Index.TrainCount` | src/pages/Index.tsx:75 | the train count is 4, 5 or 6, namely 4 + hash mod 3 |
| `Index.WindowStart` | src/pages/Index.tsx:76 | start + count < 18, so the window always fits and never reaches the last catalog entry |
| `Index.SelectTrains` | src/pages/Index.tsx:76-77 | the slice has exactly `count` entries, which are the catalog entries from the start index onward, in catalog order |
| `Index.Synthesize` | src/pages/Index.tsx:38-116 | a search yields 4 to 6 trains, its metrics are the lookup's, and train i is catalog entry start + i |
| `Index.Clock.Text` | src/pages/Index.tsx:105-114 | with hour and minute below 100 the text is five characters: two-digit padded hour, ':', two-digit padded minute |
| `Index.MockTrain` | src/pages/Index.tsx:95-116 | a derived train keeps its catalog entry; its status comes from the status table; a delay is present exactly for a delayed train; its next station is a station-table entry; its arrival and ETA hours are below 24 |
| `Index.TrainRouteFields` | src/pages/Index.tsx:106-113 | every train shows the route's own duration and distance; train i's next station is `${45 + 20i} km` away and its arrival minute is 25 + 5i |
| `Index.StatusAndDelay` | src/pages/Index.tsx:79-110 | status is ontime iff (hash + i) mod 5 < 3, delayed iff it is 3, cancelled iff it is 4; a delay is present iff delayed, and then reads `${15 + 5i} min` |
| `Index.WeatherNote` | src/pages/Index.tsx:80-111 | the weather note is slot (hash + 2i) mod 5 of the weather table; it is absent iff that slot is 4, and otherwise one of the four fixed messages |
| `Index.NextStation` | src/pages/Index.tsx:88-112 | the next station is a station-table entry, namely entry (hash + 3i) mod 12 |
| `Index.TrainTimes` | src/pages/Index.tsx:100-114 | the departure is 6 + 3i : 15 + 10i, with hour at most 21; the arrival and ETA hours are below 24; arrival adds the parsed hours mod 24; minutes are unwrapped and exceed 59 only for the sixth departure |
| `Index.DepartureTexts` | src/pages/Index.tsx:105 | the first departure renders "06:15" and the sixth "21:65" |
| `Index.SynthesizeSymmetric` | src/pages/Index.tsx:41-116 | (a, b) and (b, a) yield the identical metrics and train list |
| `Index.IndexPage.constructor` | src/pages/Index.tsx:16-17 | the page starts with no route and no trains |
| `Index.IndexPage.HandleRouteSearch` | src/pages/Index.tsx:38-118 | a search replaces the route with (from, to) and the trains with the synthesized list of 4 to 6 |
| `RouteSearch.PopularStationsDistinct` | src/components/RouteSearch.tsx:11-18 | the popular-station table has 18 pairwise distinct labels, as their use as keys needs |
| `RouteSearch.Form.SearchDisabled` | src/components/RouteSearch.tsx:83 | the button is disabled when a field is empty; `HandleSearch` calls `onSearch` exactly when it is not, and `PickTwiceFromEmpty` shows two clicks enable it |
| `RouteSearch.Form.Swapped` | src/components/RouteSearch.tsx:30-33 | both fields take the other's pre-click value; `SwapTwice` shows it is its own inverse |
| `RouteSearch.Form.Picked` | src/components/RouteSearch.tsx:98-104 | a click fills the first empty field; `PickNeverOverwrites`, `PickIdempotentWhenFull` and `PickTwiceFromEmpty` state its guarantees |
| `RouteSearch.SwapTwice` | src/components/RouteSearch.tsx:30-33 | swapping twice restores the form |
| `RouteSearch.PickNeverOverwrites` | src/components/RouteSearch.tsx:98-104 | a click fills `from` if it is empty, else `to` if it is empty; it never overwrites a filled field and never changes both |
| `RouteSearch.PickIdempotentWhenFull` | src/components/RouteSearch.tsx:98-104 | clicks on a form with both fields filled change nothing |
| `RouteSearch.PickTwiceFromEmpty` | src/components/RouteSearch.tsx:98-104 | two clicks on an empty form fill from and then to, which enables the search |
| `RouteSearch.RouteSearchForm.constructor` | src/components/RouteSearch.tsx:21-22 | both fields start empty |
| `RouteSearch.RouteSearchForm.HandleSearch` | src/components/RouteSearch.tsx:24-28 | `onSearch(from, to)` is called iff both fields are non-empty, which is exactly when the button is not disabled; nothing changes |
| `RouteSearch.RouteSearchForm.HandleSwapStations` | src/components/RouteSearch.tsx:30-33 | the two fields exchange their pre-click values |
| `RouteSearch.RouteSearchForm.SetFromStation` | src/components/RouteSearch.tsx:48 | typing sets `from` and leaves `to` unchanged |
| `RouteSearch.RouteSearchForm.SetToStation` | src/components/RouteSearch.tsx:72 | typing sets `to` and leaves `from` unchanged |
| `RouteSearch.RouteSearchForm.ClickPopularStation` | src/components/RouteSearch.tsx:93-104 | a click applies the fill-first-empty rule with the button's label and never overwrites a filled field |
| `LiveTracker.InitialFeedFacts` | src/components/LiveTracker.tsx:31-72 | the initial feed has 4 trains with distinct ids "1" to "4" and progress within 0..100 |
| `LiveTracker.TickTrain` | src/components/LiveTracker.tsx:78-81 | a tick changes only progress; a non-moving train keeps it; a moving train gets p + d when that is at most 100, and 100 when p + d reaches 100 |
| `LiveTracker.TickTrainFacts` | src/components/LiveTracker.tsx:78-81 | from a progress value in range, one tick never decreases it, raises it by less than 5, never takes it past 100, and keeps 100 at 100 |
| `LiveTracker.Tick` | src/components/LiveTracker.tsx:78-81 | the list keeps its length, order and every field except progress. Non-moving trains keep their progress; moving train i gets exactly p + d_i when that is at most 100, else exactly 100. Progress stays in range and rises by less than 5 |
| `LiveTracker.Run` | src/components/LiveTracker.tsx:77-82 | repeated firings keep the list's length; `RunFacts` states what they keep of each train |
| `LiveTracker.RunFacts` | src/components/LiveTracker.tsx:77-82 | over any number of ticks, fields other than progress are kept. Progress stays within 0..100 and never decreases. It is constant for non-moving trains and stays at 100 once reached |
| `LiveTracker.BadgeLabel` | src/components/LiveTracker.tsx:103-117 | every status has one of the four labels "Running", "Delayed", "At Station", "Cancelled" |
| `LiveTracker.BadgeLabels` | src/components/LiveTracker.tsx:103-117 | moving and running both read "Running"; delayed reads "Delayed", stationary "At Station", cancelled "Cancelled"; no other statuses share a label |
| `LiveTracker.LiveTrackerView.constructor` | src/components/LiveTracker.tsx:25 | the panel starts with an empty list |
| `LiveTracker.LiveTrackerView.StartFeed` | src/components/LiveTracker.tsx:27-74 | without a route nothing changes; with a route the list becomes the initial feed |
| `LiveTracker.LiveTrackerView.OnInterval` | src/components/LiveTracker.tsx:77-81 | one firing replaces the list by its tick and keeps progress within 0..100 |

## Left out

- All JSX rendering, CSS classes, icons and the hero and footer markup are
  presentation. This includes `getStatusIcon`, which only chooses an icon, and
  the `Math.round` of progress shown as a percentage.
- src/components/RouteVisualization.tsx, src/components/TrainCard.tsx and
  src/components/WeatherAlerts.tsx are not part of this model. They render
  props and static tables, and the visualization's positions are
  floating-point arithmetic.
- The `useEffect` / `setInterval` / `clearInterval` lifecycle is timer
  plumbing. It is reduced to `StartFeed` for the effect body and `OnInterval`
  for one firing. Timer teardown is not modelled.
- `Math.random()` is a foreign randomness source and is a parameter here.
  Floating-point rounding of `progress + d` is not modelled, because progress
  is an exact real.
- Decimal.ParseLeadingInt: does not model `parseInt`'s skipping of leading
  blanks, its sign, or its hexadecimal prefix. The only strings it receives are
  the table's durations, which start with digits.
- Strings with unpaired surrogates are outside the model's domain: a Dafny
  `char` is a Unicode scalar value, so a lone surrogate code unit, which
  JavaScript strings can hold, cannot be written down.
- The `default: return null` branch of `getStatusBadge` is not modelled. The
  status type admits only the five listed values, so that branch cannot be
  reached.
- `handleRouteSearch` receives `onSearch`'s arguments from RouteSearch. Linking
  the two components (passing the returned request to `HandleRouteSearch`) is
  left to the caller of the model.
