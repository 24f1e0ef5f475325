# NASA Data Explorer: gateway and client state machine

This project models the two parts of the NASA Data Explorer that have precise contracts, and proves properties of both.

- **The gateway** (`index.js`) is an Express service that proxies two NASA resources. `GET /apod` takes no parameters. `GET /mars-rover-photos?earth_date=YYYY-MM-DD` checks its date with the regular expression `^\d{4}-\d{2}-\d{2}$` before any upstream call. The gateway passes provider bodies through unchanged. It turns every provider failure into the fixed 500 envelope `{error: "Failed to fetch data from NASA API"}`. A malformed or missing date gets 400, and an unmatched path gets 404. The process exits with code 1 at startup when `NASA_API_KEY` is missing or empty.
- **The client** (`App.js`) is a React component with five state cells: `apodData`, `marsPhotos`, `earthDate`, `loading` and `error`. It fetches the APOD (Astronomy Picture of the Day) record once on mount. It fetches rover photos on mount and again on every date change. It derives three metadata badges from the APOD record.

Files:

- `wrappers.dfy`: `Option`, which models `null`/`undefined` versus a present value.
- `json.dfy`: JSON values, the `{error: ...}` envelope, and member lookup where the last duplicate key wins.
- `gateway.dfy` (module `Gateway`): the date validator, routing, the handlers and startup. The upstream call is a parameter `Upstream = Success(payload) | Failure(cause)`. Every handled request returns an `Exchange`, which holds the response and the provider call it made, if any. So "the provider was contacted" is an observable result.
- `explorer.dfy` (module `Explorer`): the client. Class `App` keeps the five cells as fields, and each handler makes the same setter calls in the same order as `App.js`. The value-level specification is `ViewState`. `Writes(e)` gives the setter calls of event `e`, `Apply` runs them, and `Replay` folds a sequence of events. Every `App` method that handles an event is proved to produce `Apply(old(State()), e)`. `OnApodRejected` leaves the state unchanged, and `Metadata` only reads it. The properties are lemmas about `Apply` and `Replay`.
- `session.dfy` (module `Session`): one date pick end to end. The client sends the request, the gateway handles it, axios turns the status into a resolve or a reject, and the client applies the result.

The regex is modelled as it is written. It is a list of fixed-count pieces (`\d{4}`, `-`, ...) matched with both anchors. It is proved equal to a position-by-position reference: length 10, ASCII digits at positions 0-3, 5-6 and 8-9, and `-` at positions 4 and 7. This is the `full-date` shape of RFC 3339 section 5.6, without the month and day range checks. JavaScript's `\d` is `[0-9]`, and `$` (without the `m` flag) matches only at the very end, so a trailing newline is rejected.

Route matching follows Express's defaults. Paths are compared with ASCII case ignored, and one trailing `/` is optional. So `/APOD` and `/apod/` reach the APOD handler, and only paths outside those three routes get 404. A plain reading of "any other path yields 404" would put `/APOD` in the 404 case. The model follows the framework.

The rover-photo client has no guard against responses that arrive out of order. The model keeps that behaviour: events apply in arrival order, and the last write wins. Two lemmas show what can follow. `StaleResponseWins` shows photos for an older date replacing those of the date now in the input. `StaleNoticeSurvives` shows the "no photos" notice staying above a non-empty grid, because a non-empty result does not clear `error`. It is the start of a fetch that clears it.

## Model

| member | source | states |
|---|---|---|
| `Gateway.MatchAnchoredPositionwise` | index.js:56 | An anchored match of fixed atoms succeeds exactly when the lengths agree and every character matches its atom. No trailing input is allowed. |
| `Gateway.ExpandEarthDatePattern` | index.js:56 | `\d{4}-\d{2}-\d{2}` unrolls to ten atoms: 4 digits, `-`, 2 digits, `-`, 2 digits. |
| `Gateway.RegexAcceptsExactlyDateShape` | index.js:56 | The regex test accepts a string if and only if it has length 10, ASCII digits at positions 0-3, 5-6 and 8-9, and `-` at positions 4 and 7. |
| `Gateway.ImpossibleDatesAccepted` | index.js:56 | The check is syntactic only: `2023-02-30` and `0000-99-99` are accepted. |
| `Gateway.MalformedDatesRejected` | index.js:56 | A trailing newline, a one-digit month, the empty string and `/` separators are all rejected. |
| `Gateway.RegexTest` | index.js:56 | The regex test `/^\d{4}-\d{2}-\d{2}$/.test(s)`. Anything it accepts has exactly 10 characters, all ASCII digits or `-`. |
| `Gateway.EarthDateAccepted` | index.js:56 | The negated guard. A missing or empty value is falsy and is rejected before the regex runs. Anything accepted has 10 characters. |
| `Gateway.EarthDateAcceptedIffDateShaped` | index.js:53-58 | The missing-or-malformed guard lets a request through if and only if the value is present and date-shaped. |
| `Gateway.RouteOf` | index.js:72-74 | A path falls through to the 404 handler if and only if it matches none of `/`, `/apod` and `/mars-rover-photos`. |
| `Gateway.Forward` | index.js:60-68 | Status 200 if and only if the provider succeeded. On success the body is the provider's body unchanged. On any failure it is exactly 500 with the fixed envelope. |
| `Gateway.HandleApod` | index.js:41-49 | `/apod` always makes one call to the APOD resource and answers through `Forward`. |
| `Gateway.HandleMarsRoverPhotos` | index.js:52-69 | The provider is called if and only if the date is present and date-shaped, and the call uses that exact date. Otherwise the reply is 400 with the fixed message and there is no call. |
| `Gateway.Handle` | index.js:30-74 | A request that reached the provider ends in 200 or 500. A request that did not ends in 200 (root), 400 or 404. |
| `Gateway.InvalidDateRejectedBeforeUpstream` | index.js:53-58 | A missing, empty or malformed date gives 400 with `Invalid or missing earth_date parameter. Use format YYYY-MM-DD.` and no provider call, whatever the provider would answer. |
| `Gateway.ValidDatePassesThrough` | index.js:60-64 | For a date-shaped value and a provider success, the reply is 200 with the provider body unchanged, after one call for that date. |
| `Gateway.EmptyPhotosIsSuccess` | index.js:60-64 | `{photos: []}` from the provider is a 200 success and is passed through, not an error. |
| `Gateway.ApodPassesThrough` | index.js:41-44 | `/apod` passes a success through unchanged and ignores any `earth_date` value. |
| `Gateway.FailureHidesCause` | index.js:45-48 | A provider failure on either endpoint gives exactly 500 `{error: "Failed to fetch data from NASA API"}`. The reply does not depend on the cause. |
| `Gateway.UnmatchedPathIsNotFound` | index.js:72-74 | Any other path gives 404 `{error: "Endpoint not found"}` and no provider call. |
| `Gateway.RoutingExamples` | index.js:30-52 | `/apod`, `/apod/` and `/APOD` reach the APOD handler. `/apod/today` and `/photos` reach no handler. |
| `Gateway.Start` | index.js:11-14 | The process listens if and only if the key is present and non-empty. Otherwise it exits with code 1. |
| `Gateway.Serve` | index.js:83-85 | Without the key no request is ever handled. With it, every request gets exactly its own `Handle` reply. |
| `Gateway.RequestsAreIsolated` | index.js:41-69 | The reply to a request does not depend on the requests handled before it. |
| `Explorer.Writes` | App.js:14-44 | The setter calls of each handler, in source order. Each completion ends with `setLoading(false)`. Each fetch start ends with `setLoading(true)` then `setError(null)`, and a date change first calls `setEarthDate(d)`. A resolved batch first stores the photos, and the notice is written if and only if the batch is empty. APOD handlers write only `apodData`. |
| `Explorer.PhotoCount` | App.js:101 | The "Photos Taken" badge shows the length of `marsPhotos`, and it is 0 exactly when no photo is rendered. |
| `Explorer.StartFetchEffect` | App.js:22-24 | `fetchMarsPhotos` sets `loading` to true and `error` to none, and changes no other cell. |
| `Explorer.PhotosOkEffect` | App.js:26-32 | A resolved request stores the photos in order and sets `loading` to false. An empty batch also sets `No photos available for this date.` A non-empty batch leaves `error` as it was. |
| `Explorer.PhotosFailEffect` | App.js:33-37 | A rejected request sets `Failed to fetch Mars Rover photos.` and `loading` to false. The stale photos are kept. |
| `Explorer.DateChangeEffect` | App.js:40-44 | A date change stores the date and then performs the fetch for that same date. |
| `Explorer.ApodOkEffect` | App.js:15 | A resolved APOD request sets only `apodData`. |
| `Explorer.ApodFailEffect` | App.js:16 | A rejected APOD request changes no cell. |
| `Explorer.ApplyKeepsConsistent` | App.js:22-37 | Every event preserves "loading implies no error message". |
| `Explorer.ReachableIsConsistent` | App.js:6-44 | Every state reachable from the initial state keeps that invariant. |
| `Explorer.LoadingIffPending` | App.js:22-37 | `loading` is true if and only if the last rover-photo event started a request, so it never stays on after a request resolves. |
| `Explorer.CompletionEndsLoading` | App.js:31-36 | After any completion event `loading` is false, whatever came before. |
| `Explorer.ApodAndPhotosCommute` | App.js:12-37 | The APOD source and the rover source are independent: their events commute. |
| `Explorer.StaleResponseWins` | App.js:22-44 | Without a sequence guard, a late answer for an earlier date replaces the photos of the date shown in the input. |
| `Explorer.StaleNoticeSurvives` | App.js:26-31 | The same race can leave the "no photos" notice above a non-empty grid. |
| `Explorer.EmptyResultScenario` | App.js:26-31 | A fetch for the default date followed by an empty batch ends with no spinner, the notice shown and a count of 0. |
| `Explorer.TwoPhotosScenario` | App.js:26-31 | Two photos end with no spinner, no message, a count of 2 and id 1 before id 2. |
| `Explorer.ApodMetadata` | App.js:47-51 | Three badges with fixed labels. Media Type is `Image` if and only if `media_type == "image"`, otherwise `Video`. HD is `Yes` if and only if `hdurl` is non-empty. Copyright is `© ` + c when `copyright` is non-empty, otherwise `Not Available`. |
| `Explorer.MetadataWithoutRecord` | App.js:47-51 | With no record the derived array holds `Video`, `No` and `Not Available`. App.js:62 renders none of it. |
| `Explorer.MetadataReadsThreeFields` | App.js:47-51 | The badges depend only on `media_type`, `hdurl` and `copyright`. |
| `Explorer.App.constructor` | App.js:6-10 | The initial cells are: no record, no photos, `2023-10-01`, not loading and no error. |
| `Explorer.App.FetchMarsPhotos` | App.js:22-25 | Issues `GET /mars-rover-photos?earth_date=date`. The new state is `Apply(old, StartFetch(date))`, so `loading` is on, `error` is cleared and the other cells are unchanged. |
| `Explorer.App.Mount` | App.js:12-20 | Issues the APOD request, then the photo request for the current date, and starts that fetch. |
| `Explorer.App.OnPhotosResolved` | App.js:26-32 | The new state is `Apply(old, PhotosOk(photos))`: photos stored, `loading` off, and the notice set if and only if the batch is empty. |
| `Explorer.App.OnPhotosRejected` | App.js:33-37 | The new state is `Apply(old, PhotosFail)`: failure message set, `loading` off, photos kept. |
| `Explorer.App.HandleDateChange` | App.js:40-44 | The new state is `Apply(old, DateChange(d))`, and the request is issued for `d`. |
| `Explorer.App.OnApodResolved` | App.js:15 | The new state is `Apply(old, ApodOk(r))`. Loading, error and photos are untouched. |
| `Explorer.App.OnApodRejected` | App.js:16 | An APOD failure leaves the state unchanged. |
| `Explorer.App.Metadata` | App.js:47-62 | No badges are on screen without a record, because the card is rendered only when `apodData` is present. With a record, the badges are `ApodMetadata` of it. |
| `Session.PhotosRoundTrip` | App.js:27 | Reading `response.data.photos` from the provider's body gives back exactly the provider's batch, in order. |
| `Session.CompletionFor` | App.js:25-37 | A non-2xx gateway reply becomes the rejection callback. A 2xx reply whose `photos` list decodes to `ps` becomes `PhotosOk(ps)`. A 2xx reply whose list does not decode is not modelled. |
| `Session.PickDate` | App.js:40-44 | The user picks a URL-safe `d` and the gateway's `Handle` reply is applied. Whenever modelled, the state is the date change followed by the completion `CompletionFor` gives for that reply. It holds `d`, has the spinner off and keeps the APOD record. It is unmodelled only for a 2xx reply whose photo list does not decode. |
| `Session.MalformedDateShowsFailure` | App.js:33-37 | Picking a cleared or malformed date never reaches the provider. It ends with `Failed to fetch Mars Rover photos.`, the spinner off and the old photos kept. |
| `Session.UpstreamFailureShowsFailure` | App.js:33-36 | A provider failure for a valid date shows the same failure message, after one provider call for that date. |
| `Session.EmptyDayShowsNotice` | App.js:28-31 | A valid date with an empty provider batch ends with the notice, a count of 0 and the spinner off. |
| `Session.PhotosShownInOrder` | App.js:26-31 | A valid date with a non-empty batch shows exactly that batch in order, with no message and the spinner off. |

## Left out

- HTTP transport, URL building with the API key, JSON serialisation and the axios/Express/cors machinery. The provider call is an abstract `Upstream` outcome.
- The `console.log` and `console.error` logging. It is observability only.
- Request methods. Every request is taken to be a GET. The cors middleware's preflight answer and the 404 that other methods would get are not modelled.
- Request bodies. `express.json()` parsing is not modelled. The global error handler (index.js:77-80), which answers a malformed JSON body with 500 `Something went wrong on the server!`, is left out for the same reason.
- Repeated or nested query parameters. For example, `earth_date` given twice arrives as an array. The query value is modelled as one optional string.
- The `PORT` default and reading the environment. The key is an optional string passed in at startup.
- React render timing. `Consistent` (loading implies no message) is proved between callbacks. App.js calls `setError` before `setLoading(false)`, so the invariant assumes that React commits all setter calls of one callback together, as React 18's automatic batching does. Without batching, one intermediate render would show the spinner and the message together.
- Concurrency. Completions are discrete events applied in arrival order. No sequence guard is added, because the source has none.
- The date input's `min`/`max` bounds (App.js:92-93). The browser enforces them, and `max` reads the clock. `DateChange` accepts any string, including the empty string that clearing the input produces.
- JSX markup and CSS. Only the photo count (`PhotoCount`, the length of `marsPhotos`) and the metadata badges are modelled.
- `Session.CompletionFor` returns `None`, which means unmodelled, for every 2xx reply whose `photos` list does not decode to `RoverPhoto` records. In the source this covers four cases, and the model captures none of them. (1) A `null` body makes `response.data.photos` throw before `setMarsPhotos` runs, so the old photos are kept. (2) A non-null body whose `photos` is missing or `null` stores that value with `setMarsPhotos`, and then `.length` throws. In both of these cases the `.catch` sets `Failed to fetch Mars Rover photos.` and turns `loading` off. (3) Any other non-array `photos` (a string, number, boolean or object) is stored with no throw, and `loading` is turned off. The notice is set only if its `.length` is 0, as for the empty string. (4) An array whose elements lack an integer `id` or a string `img_src` is a normal success, with the notice set exactly when the array is empty.
- `Session.UrlSafe` restricts `Session.PickDate` and `Session.MalformedDateShowsFailure` to dates made of letters, digits and `-`. The client interpolates the date into the URL without encoding it, so other characters could change the query the gateway sees.
- Idempotence of the gateway (the same request with the same provider data gives the same body). It holds by construction, because `Handle` is a function.
