# Emergency reporting client: tracking timeline, intervention list and report submission

This project models the logic of three pages of a mobile client that reports electrical
emergencies ("interventions") and follows them to resolution. Each page gets one Dafny module.

- **Tracking page** (`src/pages/SuivieUrgence2.tsx`, module `InterventionTracking`). It derives a
  five-step timeline (Réceptionnée, Agent Affecté, En Route, Arrivé, Terminée) from the
  intervention's `status` (`pending`, `accepted`, `in-progress`, `completed`, `closed`) and its
  `sub_status`. It folds the steps into the index of the current step and places the
  "En cours..." marker. `fetchInterventionStatus` picks the intervention out of the response
  envelope, keeps the previous one on failure and always clears `isLoading`.
- **Intervention list** (`src/pages/InterventionsListPage.tsx`, module `InterventionsList`).
  It has a case-insensitive status-to-badge classifier, a case-sensitive segment filter and the
  normalisation of the list response. `fetchInterventions` raises and lowers the `loading` or
  `isRefreshing` flag and sets `error`.
- **Report form** (`src/pages/SignaleUrgence.tsx`, module `EmergencyReport`). It has the
  many-to-one category-to-id table and the request payload. `handleSubmit` has a re-entrancy
  guard, requires the category, phone and address, rejects a response without an id, and stores
  the reporter phone and navigates to tracking only after a success.

Shared modules: `Wrappers` (Option, Result), `JsonValues` (parsed JSON with JavaScript
truthiness and property access), `Http` (the outcome of a `fetch`).

The React state of each page is a class whose fields are the page's state variables. On the list
and report pages the async handler is split at its `await` into a method that runs up to the
request and one that runs from the response on. A third method composes the two, so the state
while a request is in flight can be stated. The tracking page's `fetchInterventionStatus` is one
method, because nothing in its contract depends on the state while its request is in flight. Network responses are inputs to the methods. Storage writes, navigations, requests and
toasts are recorded in fields. Reading a property of `null` throws in JavaScript; the model
carries that failure path wherever the code can reach it, for example a `null` response body or
a `null` item in the list.

Two behaviours of the code differ from the documented design:

- The status token is spelled `in-progress`, with a hyphen.
- The 10-second poll has no terminal-status short-circuit: every call of
  `FetchInterventionStatus` with an id sends a request, whatever the status.

The code is followed in both cases. The documented quote workflow and rating prompt appear in
none of these pages and are not modelled.

One consequence of the list page's two status comparisons is stated as a lemma
(`BadgeWithoutSegment`). A `closed` intervention gets the "Terminée" badge but is not in the
"completed" segment. A "PENDING" intervention gets the "En Attente" badge but is not in the
"pending" segment.

## Model

| member | source | states |
|---|---|---|
| `InterventionTracking.GetSteps` | src/pages/SuivieUrgence2.tsx:101-140 | no intervention gives no steps; otherwise exactly five steps named in the fixed order; the first is active and completed; active flags are prefix-closed; completed implies active |
| `InterventionTracking.ReachedSteps` | src/pages/SuivieUrgence2.tsx:115-137 | the number of steps a status reaches lies in 1..5 and is 5 exactly for `completed`/`closed` |
| `InterventionTracking.CompletedSteps` | src/pages/SuivieUrgence2.tsx:115-137 | the number of completed steps lies between 1 and the reached steps, and equals the reached steps only when terminal or when only the first step is reached |
| `InterventionTracking.StepsFollowLifecycle` | src/pages/SuivieUrgence2.tsx:107-139 | step k is active iff k < reached steps and completed iff k < completed steps, for every status and sub-status |
| `InterventionTracking.StatusCases` | src/pages/SuivieUrgence2.tsx:117-137 | `pending` or any unlisted status leaves only step 0 active; `completed`/`closed` make all five active and completed; under `in-progress`, Arrivé is active iff `sub_status` is `arrive` |
| `InterventionTracking.ReduceLastActive` | src/pages/SuivieUrgence2.tsx:143 | from any position the reduce ends on the last active step at or after it, or keeps its accumulator when none is active |
| `InterventionTracking.CurrentStepIndex` | src/pages/SuivieUrgence2.tsx:143 | `currentStepIndex` is the largest active index, with no active step after it, or 0 when no step is active, and lies inside a non-empty list |
| `InterventionTracking.ActiveCount` | src/pages/SuivieUrgence2.tsx:101-140 | the number of active steps is at most the number of steps, is 0 exactly when no step is active, and equals the length exactly when every step is active |
| `InterventionTracking.CurrentStepCountsActive` | src/pages/SuivieUrgence2.tsx:143 | on a prefix-closed list whose first step is active, the current index equals the number of active steps minus one |
| `InterventionTracking.CurrentStepOfIntervention` | src/pages/SuivieUrgence2.tsx:101-143 | for a loaded intervention the current index lies in 0..4, equals active count minus one and is the last step its status reaches |
| `InterventionTracking.ShowsInProgress` | src/pages/SuivieUrgence2.tsx:237 | the marker is shown only at an index of the rendered timeline, never at a terminal status, and never when no intervention is loaded |
| `InterventionTracking.InProgressMarkerPlacement` | src/pages/SuivieUrgence2.tsx:237 | "En cours..." is on exactly the current step when the status is not terminal, and on no step when it is; the marked step is active, is never the last, and the next step is inactive |
| `InterventionTracking.SelectIntervention` | src/pages/SuivieUrgence2.tsx:73 | the envelope choice yields nothing exactly when the body is `null` (reading its property throws); otherwise it is `intervention` when truthy, else `data` when truthy, else the body itself |
| `InterventionTracking.EnvelopeShapes` | src/pages/SuivieUrgence2.tsx:73 | a record under `intervention`, under `data`, or bare, is selected unchanged |
| `InterventionTracking.FetchedIntervention` | src/pages/SuivieUrgence2.tsx:65-75 | a fetch stores something exactly when the status is 2xx, the body parses and is not `null`, and what it stores is the envelope choice applied to that body |
| `InterventionTracking.TrackingPage.constructor` | src/pages/SuivieUrgence2.tsx:47-48 | the page starts with no intervention and `isLoading` set |
| `InterventionTracking.TrackingPage.FetchInterventionStatus` | src/pages/SuivieUrgence2.tsx:58-81 | without an id nothing changes; otherwise one request is sent whatever the status, the selected intervention replaces the old one or a failure keeps it, and `isLoading` is false |
| `InterventionTracking.TrackingPage.Mount` | src/pages/SuivieUrgence2.tsx:84-97 | without an id the page redirects to `/` and sends nothing; otherwise it fetches once |
| `InterventionTracking.TrackingPage.RefreshClicked` | src/pages/SuivieUrgence2.tsx:169 | the refresh button sets `isLoading` and fetches, leaving `isLoading` false exactly when there is an id |
| `InterventionsList.LowerAscii` | src/pages/InterventionsListPage.tsx:43 | lower-casing keeps the length and maps A..Z to a..z, every other character to itself |
| `InterventionsList.GetStatusStyle` | src/pages/InterventionsListPage.tsx:42-55 | the badge is one of four; "En Attente"/danger iff the lower-cased status is `pending`, "En Cours"/warning iff `accepted` or `in-progress`, "Terminée"/success iff `completed` or `closed`, "Inconnu"/medium otherwise |
| `InterventionsList.LowerAsciiIdempotent` | src/pages/InterventionsListPage.tsx:43 | lower-casing an already lower-cased status changes nothing |
| `InterventionsList.StatusStyleIgnoresCase` | src/pages/InterventionsListPage.tsx:43 | lower-casing is idempotent, so a status and its lower-cased form get the same badge |
| `InterventionsList.Keeps` | src/pages/InterventionsListPage.tsx:111-116 | the `all` segment keeps every item; any other segment keeps only items with a string status, equal to the segment name except under `active`; `active` never keeps an item whose status is the literal `active` |
| `InterventionsList.FilterInterventions` | src/pages/InterventionsListPage.tsx:111-117 | the filter fails exactly when a segment other than `all` meets a `null` item; otherwise the result is an order-preserving subsequence, no longer than the input, holding each kept item as often as the input does and no other item |
| `InterventionsList.FilterAllIsIdentity` | src/pages/InterventionsListPage.tsx:112 | the `all` segment returns the list unchanged |
| `InterventionsList.FilterKeepsExactly` | src/pages/InterventionsListPage.tsx:113-116 | `active` keeps exactly the `accepted` and `in-progress` items; any other segment keeps exactly the items whose status equals it, case-sensitively |
| `InterventionsList.SegmentsAgreeWithBadges` | src/pages/InterventionsListPage.tsx:111-117 | items in the `pending`, `active` and `completed` segments carry the "En Attente", "En Cours" and "Terminée" badges |
| `InterventionsList.BadgeWithoutSegment` | src/pages/InterventionsListPage.tsx:116 | a `closed` item has the "Terminée" badge but is not in `completed`; a `PENDING` item has "En Attente" but is not in `pending` |
| `InterventionsList.NormalizeList` | src/pages/InterventionsListPage.tsx:85-91 | a `null` body throws; a selected list is the body itself, its `data`, or `data.interventions` |
| `InterventionsList.ListSelectionRule` | src/pages/InterventionsListPage.tsx:85-91 | for every non-null body the candidate is the first truthy one of `data.interventions`, `data` and the body; a list is stored exactly when the candidate is an array, and it is that array's elements; otherwise nothing is listed |
| `InterventionsList.ListEnvelopeShapes` | src/pages/InterventionsListPage.tsx:85 | a bare array, an array under `data` and one under `data.interventions` all yield that array |
| `InterventionsList.ListSelectionPriority` | src/pages/InterventionsListPage.tsx:85-91 | a `data` object without an `interventions` key is not an array and yields no list |
| `InterventionsList.Decimal` | src/pages/InterventionsListPage.tsx:79 | the status in the failure message is printed as a non-empty string of decimal digits that denotes the status, with no leading zero |
| `InterventionsList.Message` | src/pages/InterventionsListPage.tsx:60-94 | the missing-token and 401 errors carry their fixed texts; an HTTP failure reads "Échec du chargement: " followed by digits denoting the status; a thrown error carries its own message |
| `InterventionsList.LoadResult` | src/pages/InterventionsListPage.tsx:68-96 | only a 2xx parsed body succeeds; a network error or an unparsable body fails with its own message; 401 is `SessionExpired`, any other non-2xx a failure carrying its status; a `null` body fails with the TypeError message; a selected array succeeds with exactly its elements, a non-array selection with the empty list |
| `InterventionsList.UnauthorizedMessage` | src/pages/InterventionsListPage.tsx:77 | a 401 response sets the error 'Session expirée.' |
| `InterventionsList.ListPage.constructor` | src/pages/InterventionsListPage.tsx:29-32 | the page starts with an empty list, no busy flag and no error |
| `InterventionsList.ListPage.HasToken` | src/pages/InterventionsListPage.tsx:59 | `!TOKEN` is false exactly when a token is stored and is not empty |
| `InterventionsList.ListPage.StartFetch` | src/pages/InterventionsListPage.tsx:59-66 | without a token the error is set and the page redirects to `/login`, with no request and no other change; otherwise exactly the busy flag chosen by `refresh` is raised, the error cleared and one request sent |
| `InterventionsList.ListPage.FinishFetch` | src/pages/InterventionsListPage.tsx:77-99 | the list or the error is stored as the response dictates, and the busy flag chosen by `refresh` is lowered on every outcome, the other left alone |
| `InterventionsList.ListPage.FetchInterventions` | src/pages/InterventionsListPage.tsx:58-100 | a whole call: the token check, then one request whose outcome sets the list or the error, with the busy flag lowered again at the end |
| `EmergencyReport.GetProblemTypeId` | src/pages/SignaleUrgence.tsx:38-52 | ids lie in 0..8; 1..7 exactly for the seven primary categories, each id naming its category; 8 exactly for Clim, Brulure and autre; 0 for anything else |
| `EmergencyReport.PrimaryIdsRoundTrip` | src/pages/SignaleUrgence.tsx:38-50 | BlackOut..Solaire map to 1..7 in order, ids 1..7 are one-to-one, and Clim, Brulure, autre share 8 |
| `EmergencyReport.OfferedCategoriesHaveIds` | src/pages/SignaleUrgence.tsx:270-363 | every category a button offers maps to an id in 1..8 |
| `EmergencyReport.FormComplete` | src/pages/SignaleUrgence.tsx:61 | a complete form has a non-empty category, phone and address; any offered category with a non-empty phone and address is complete |
| `EmergencyReport.BuildPayload` | src/pages/SignaleUrgence.tsx:75-86 | the payload carries the category's id and name as title, the address and phone, priority `low`, the fixed placeholders, and the position's coordinates or 0 without one |
| `EmergencyReport.CreatedId` | src/pages/SignaleUrgence.tsx:99-109 | a submission is accepted only from a 2xx parsed response whose `data.id` is truthy, and yields that id |
| `EmergencyReport.CreatedIdRequiresId` | src/pages/SignaleUrgence.tsx:105-109 | a 2xx response is accepted exactly when its `data` record has a truthy `id` |
| `EmergencyReport.Completion` | src/pages/SignaleUrgence.tsx:111-128 | a failure only shows the error toast; the reporter phone is stored exactly on success |
| `EmergencyReport.PersistBeforeNavigate` | src/pages/SignaleUrgence.tsx:111-121 | navigation happens exactly on success, to the returned id with the submitting phone, and always after the phone is stored |
| `EmergencyReport.ReportPage.constructor` | src/pages/SignaleUrgence.tsx:20-30 | the phone field starts from the stored reporter phone, or empty; nothing is submitting |
| `EmergencyReport.ReportPage.BeginSubmit` | src/pages/SignaleUrgence.tsx:55-88 | while submitting nothing happens; with a missing category, phone or address a warning is shown, nothing is sent and `isSubmitting` stays false; otherwise `isSubmitting` is set and exactly the built payload is posted and recorded as the one in flight |
| `EmergencyReport.ReportPage.CompleteSubmit` | src/pages/SignaleUrgence.tsx:99-131 | completes the submission in flight: the phone it was posted with is stored and the page navigates only when an id came back; `isSubmitting` is false and nothing is in flight after either outcome |
| `EmergencyReport.ReportPage.HandleSubmit` | src/pages/SignaleUrgence.tsx:55-132 | a whole call: guard, validation, one post, then the success or failure effects, with `isSubmitting` back to its value before the call |

## Left out

- Rendering: JSX, Ionic components, icons, styles and colours of the timeline and the list.
  Toast texts are also left out. The report form records which toast it shows; the other pages
  record none, including the list page's "invalid data structure" warning.
- The timers and the effect cleanup: `setInterval`/`clearInterval` on the tracking page. Each
  timer tick, the mount effect, the refresh button and pull-to-refresh are each one call of
  `FetchInterventionStatus`. Unmounting is not modelled.
- The network: URLs, headers (including the optional bearer token of the tracking page) and
  request timing. Each request's outcome is an input. Overlapping requests are separate method
  calls, in whatever order the caller makes them.
- Device location (`handleGetLocation`, the `toFixed` text): a position is an optional pair of
  reals.
- The texts of errors thrown by the JavaScript engine (network failures, JSON syntax errors) are
  carried as given. `NullDataMessage` uses the V8 engine's wording.
- The message of a rejected submission (`errorData.message`) only sets toast text. It is not
  modelled; the failure path is.
- `InterventionsList.LowerAscii`: lower-cases A..Z only. No other Unicode character lower-cases
  into one of the status tokens, so the badge classification is exact.
- `getStatusStyle` on a non-string status throws during rendering. The classifier is modelled on
  strings only.
- JSON numbers are doubles: `JSON.parse` yields Infinity for `1e400` and 0 for `1e-400`. The
  model uses reals. The modelled operations only test truthiness and equality, so a real stands
  for any finite double, a non-zero real for an infinity, and a literal that underflows is
  given as `JNum(0.0)`, which is falsy like the double it parses to.
- Form capture (setting the phone, address and category fields) is direct assignment of the
  class fields.
- `src/pages/LoginPage.tsx` (a credential request and token storage) is not part of this model.
  Neither are `src/pages/SuivieUrgence.tsx` (a static timeline), `src/App.tsx` (a route table;
  it wires `/suivie-urgence` to the static page), `src/pages/Accueil.tsx`,
  `src/pages/About.tsx` and `capacitor.config.ts`.
- Cost quotes, the rating prompt and polling suspension at a terminal status are part of the
  documented design, but these pages have none of them. They are not modelled.
