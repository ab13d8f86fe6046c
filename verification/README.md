# Disaster report lifecycle — a Dafny model

This project models the report lifecycle of a disaster-alert app. Reporters
submit incident reports. Administrators approve or reject them. Rescue teams
accept and complete missions on them. It covers both halves of that
lifecycle:

- **The server** (`backend/server.js`) keeps one document `{reports, contacts}`.
  - `POST /api/reports` builds a report from the request body. It overrides
    `id`, `status` and `time`, then puts the report at the front of the list.
  - `PATCH /api/reports/:id` updates every report with that id, key by key,
    filling missing keys with `??` defaults. An unknown id gives 404 and
    nothing is written.
  - `POST /api/contacts` forces `isEmergency: false` and appends the contact.
- **The client context** (`src/context/DisasterContext.js`) keeps a cached copy
  of the two collections.
  - `addReport` prepends the saved report. `addContact` appends whatever
    JSON came back.
  - The four transitions (`approveReport`, `rejectReport`, `acceptMission`,
    `completeMission`) send a PATCH. On an OK response they merge
    `{...report, ...updated}` into the entry with that id. `updated` is the
    reply's `report`, or a locally built fallback object when the reply has
    none.
  - Five derived views filter the cache: pending, approved, active,
    completed and rejected.

JavaScript objects become records whose keys are `Option` fields
(`Nullish.Option`). `??` is `Or`, and an object spread is `Records.Merge`.
The fresh id, the creation time and every clock reading are parameters.
Each `fetch` becomes an `Http` value: `Ok(body)`, `NotOk(body)` or `Thrown`,
where a body of `None` means the response body was not JSON.

Modules: `Nullish` (missing keys), `Records` (entities, document, spread),
`Server` (handlers), `Views` (derived views), `Client` (cache updates),
`Lifecycle` (the transitions across both halves, the intended state
machine, and client/server round trips).

The code departs from the intended lifecycle in four ways, and the model follows the code:

- **Timestamps are not write-once.** Re-approving without an `approvedAt`
  overwrites the stored one with the new "now"
  (`Server.ReapprovalOverwritesApprovedAt`).
- **Submission passes `missionStatus` through.** The server forces
  `Pending` but keeps any `missionStatus` the client sent, so a new report
  need not start without a mission (`Lifecycle.SubmittedWellFormed`).
- **No transition checks its precondition.** Approving a rejected report or
  completing a mission never accepted succeeds. Left-over keys such as an
  old `rejectionReason` survive (`Server.ApplyPatch`,
  `Lifecycle.TransitionsIgnoreState`).
- **The views are guaranteed to partition the cache only under an
  invariant the server does not keep.** That invariant is: a known status,
  and a mission only on an approved report (`Views.ViewsPartition`,
  `Lifecycle.UnpermittedMissionCountedTwice`). It is sufficient, not
  necessary: `Views.MembershipCases` gives the exact condition for a report
  to be listed once, so a report with an unknown status and an active
  mission is still listed exactly once.

## Model

| member | source | states |
|---|---|---|
| `Server.CreateReport` | backend/server.js:64-69 | the new report has the fresh id, status `Pending` and the given time whatever the client sent; every other key is the client's, verbatim |
| `Server.SubmitReport` | backend/server.js:63-83 | the created report is at index 0, followed by the old list unchanged; length grows by one; contacts untouched |
| `Server.ApplyPatch` | backend/server.js:97-126 | identity keys never change; an omitted `status`/`missionStatus` keeps the old value; approve writes severity (given or `High`) and `approvedAt` (given or now), overwriting old ones; reject writes reason (given or `No reason provided`) and `rejectedAt`; `Active`/`Completed` write `acceptedAt`/`completedAt`; all other keys survive, whatever the current state |
| `Server.PatchAll` | backend/server.js:94-129 | same length and order; every report with the id is patched, every other one is untouched |
| `Server.IndexOfId` | backend/server.js:136 | returns nothing exactly when no report has the id, otherwise the first index holding it |
| `Server.PatchReport` | backend/server.js:87-137 | 404 exactly when no report has the id, and then the document is unchanged; otherwise same length and order, other reports untouched, matching ones patched, contacts untouched, and the reply is the patched first match |
| `Server.AddContact` | backend/server.js:149-158 | the new contact has the fresh id and `isEmergency = false`, other keys from the body; it is appended at the end; reports untouched |
| `Server.PatchIdempotent` | backend/server.js:97-126 | patching a report twice with the same body and the same "now" equals patching it once |
| `Server.PatchAllIdempotent` | backend/server.js:94-129 | re-running the map over the reports with the same body and "now" leaves the list as the first run left it |
| `Server.PatchReportIdempotent` | backend/server.js:87-137 | the whole PATCH request, document and reply, is idempotent for the same body and "now" |
| `Server.ReapprovalOverwritesApprovedAt` | backend/server.js:104-107 | approving again without a timestamp replaces an existing different `approvedAt` with "now" |
| `Server.HandlersKeepIdsUnique` | backend/server.js:64-129 | with a fresh id not already used, submitting keeps report ids unique, and a PATCH never breaks uniqueness |
| `Records.MergeYieldsOver` | src/context/DisasterContext.js:99-105 | spreading a report over an old one yields exactly the new report if and only if the new one carries every key of the old one |
| `Views.ViewMembers` | src/context/DisasterContext.js:268-272 | a view is no longer than the cache, lists only cached reports satisfying its predicate, and lists every cached report that does |
| `Views.PositionsExact` | src/context/DisasterContext.js:268-272 | the positions a filter keeps are ascending and are exactly those whose report satisfies the view's predicate |
| `Views.ViewIsOrderedFilter` | src/context/DisasterContext.js:268-272 | a view is the cache read at exactly the ascending positions whose report satisfies the view's predicate |
| `Views.ViewOfAppend` | src/context/DisasterContext.js:268-272 | the view of a concatenation is the concatenation of the views |
| `Views.ViewsDisjoint` | src/context/DisasterContext.js:268-272 | two different views can never share a report exactly when they are not pending/rejected against active/completed |
| `Views.CachedViewsDisjoint` | src/context/DisasterContext.js:268-272 | for such a pair, no report of any cache is listed in both views |
| `Views.MembershipCases` | src/context/DisasterContext.js:268-272 | a report is in at most two views; in exactly one if well formed; in two exactly when pending or rejected with a mission; in none exactly when it has an unknown status and no mission |
| `Views.SharesAddUp` | src/context/DisasterContext.js:268-272 | if every cached report is well formed, the five views together hold each report exactly as often as the cache does |
| `Views.ViewsPartition` | src/context/DisasterContext.js:268-273 | if every cached report is well formed, the sizes of the five views sum to `allReportsCount` |
| `Views.RejectedActiveCountedTwice` | src/context/DisasterContext.js:270-272 | a rejected report with an active mission is not well formed and is listed in both the rejected and active views, so the view sizes exceed `allReportsCount` |
| `Client.AddReport` | src/context/DisasterContext.js:44-69 | an OK response whose body parses puts the saved report first and keeps the rest; a non-OK response, an unparsable body or a throw leaves the cache unchanged |
| `Client.MergeById` | src/context/DisasterContext.js:99-105 | same length and order; entries with other ids untouched; matching entries become their old keys overridden by the update's |
| `Client.Reconcile` | src/context/DisasterContext.js:90-115 | on OK, matching entries are merged with the reply's report, or with the fallback when there is none; on non-OK or throw nothing changes; contacts untouched |
| `Client.ApproveRequest` | src/context/DisasterContext.js:72-83 | the body asks for `Approved`, with the caller's severity (default `High`) and the client's timestamp, and no mission change |
| `Client.RejectRequest` | src/context/DisasterContext.js:120-130 | the body asks for `Rejected`, with the caller's reason (default `Insufficient information`) and the client's timestamp |
| `Client.AcceptRequest` | src/context/DisasterContext.js:188-191 | the body asks for mission `Active` with the client's timestamp and no status change |
| `Client.CompleteRequest` | src/context/DisasterContext.js:231-234 | the body asks for mission `Completed` with the client's timestamp and no status change |
| `Client.ApproveReport` | src/context/DisasterContext.js:72-116 | failure leaves the cache unchanged; contacts and entries with other ids untouched; an OK reply carrying a report merges it into each matching entry; length kept; with no report in an OK reply, the entry keeps its keys except status `Approved`, the severity and the local `approvedAt` |
| `Client.RejectReport` | src/context/DisasterContext.js:120-163 | failure leaves the cache unchanged; contacts and entries with other ids untouched; an OK reply carrying a report merges it into each matching entry; length kept; with no report in an OK reply, the entry keeps its keys except status `Rejected`, the reason and the local `rejectedAt` |
| `Client.AcceptMission` | src/context/DisasterContext.js:182-222 | failure leaves the cache unchanged; contacts and entries with other ids untouched; an OK reply carrying a report merges it into each matching entry; length kept; with no report in an OK reply, the entry keeps its keys except mission `Active` and the local `acceptedAt` |
| `Client.CompleteMission` | src/context/DisasterContext.js:225-266 | failure leaves the cache unchanged; contacts and entries with other ids untouched; an OK reply carrying a report merges it into each matching entry; length kept; with no report in an OK reply, the entry keeps its keys except mission `Completed` and the local `completedAt` |
| `Client.CompletionMovesToCompleted` | src/context/DisasterContext.js:225-271 | after an OK reply with no report, or with a report saying `Completed`, the entry is in the completed view and in neither the active nor the approved view |
| `Client.ContactRequest` | src/context/DisasterContext.js:166-172 | the body carries name, phone and relation only |
| `Client.AddContact` | src/context/DisasterContext.js:166-179 | any response whose body parses is appended at the end, OK or not; a throw leaves the cache unchanged; reports untouched |
| `Lifecycle.TransitionsIgnoreState` | backend/server.js:97-126 | from any current state, each client transition reaches its target status or mission status, records the client's timestamp, and leaves the other axis alone |
| `Lifecycle.ClientRejectionReasonWins` | src/context/DisasterContext.js:120-130 | the client's default reason differs from the server's, and the server stores the server default for a client rejection only when the caller passed that text |
| `Lifecycle.PermittedKeepsWellFormed` | backend/server.js:97-126 | transitions that the state-machine table permits keep a report well formed |
| `Lifecycle.UnpermittedMissionCountedTwice` | backend/server.js:115-124 | accepting or completing a mission on a pending or rejected report is not permitted, yet the server does it, and the report lands in two views |
| `Lifecycle.SubmittedWellFormed` | backend/server.js:64-69 | a submitted report is well formed exactly when the client sent no `Active`/`Completed` mission status |
| `Lifecycle.PatchExtends` | backend/server.js:97-126 | a patch never drops a key of the report |
| `Lifecycle.SubmitRoundTrip` | src/context/DisasterContext.js:62-64 | a cache equal to the document stays equal after a submission; the new report heads the list, and the pending view is the new report followed by the old pending view |
| `Lifecycle.TransitionRoundTrip` | src/context/DisasterContext.js:90-105 | with unique ids, a cache equal to the document stays equal after any transition's round trip; on 404 neither side changes |
| `Lifecycle.FallbackMatchesServer` | src/context/DisasterContext.js:92-105 | when an OK reply has no report, the fallback merge matches the server's stored report except for the transition's timestamp, which is the client's second clock reading |
| `Lifecycle.ContactRoundTrip` | src/context/DisasterContext.js:168-174 | a contact list equal to the document stays equal after adding a contact, and the new contact is not an emergency contact |

## Left out

- File I/O in `readData`/`writeData` (backend/server.js:20-43) is not modelled. That covers the existence check, the JSON parse and write, and the empty-document fallback on error. The document is an in-memory `Store` value that each handler receives and returns.
- The read-modify-write race between concurrent requests is not modelled. Every handler here runs alone from read to write. The source gives no guarantee against lost updates.
- Express routing, CORS, logging middleware, `console.log`, `Alert.alert` and the SOS log lines (backend/server.js:71-78) are left out. They affect no stored value.
- `GET /api/reports`, `GET /api/contacts` and the client's `fetchReports`/`fetchContacts`/`refreshData` are left out. They copy a whole collection unchanged.
- React state, hooks and the mount-time `useEffect` are left out. Each client action is a function from cache to cache.
- `Date.now().toString()`, `toLocaleTimeString()` and `toISOString()` are parameters. Id uniqueness is not guaranteed by the source, so it is a precondition (`UniqueIds`, a fresh id) of the lemmas that need it.
- Server.ApplyPatch: one "now" serves every default in a request. The source reads the clock separately for each default it fills, and two such readings in one request may differ.
- A missing key and a key holding `null` are the same `None`. `??` treats them alike. Apart from the client's default parameters (next two lines), they differ only when a spread copies an explicit `null` over a value. Submitting a report without a photo does send `image: null` (src/screens/ReportScreen.js:24 and :100); the server spreads it into the stored report and the replies send it back, but that stored `null` is only ever spread over the same `null` in the cache, so conflating it with a missing key changes no outcome.
- Client.RejectRequest: `None` stands for an omitted `reason`. The JavaScript default `'Insufficient information'` applies only to an omitted (`undefined`) argument; a caller passing `null` would send `rejectionReason: null`, and the server would then store its own default `'No reason provided'`. The model cannot express a `null` argument, so `Lifecycle.ClientRejectionReasonWins` covers only callers that omit the reason or pass a string. No caller in the app passes `null`.
- Client.ApproveRequest: likewise `None` stands for an omitted `severity`. A `null` argument would send `severity: null`, so the server would store `High`, while the client's fallback object would spread `severity: null` over the cached entry. This is not modelled; no caller in the app passes `null`.
- Keys outside the modelled field set are not represented. The server passes such keys through `...req.body` verbatim, and nothing reads them.
- Field values are typed as strings, or as booleans for the SOS and emergency flags. A JSON value of another type, for example a numeric `status`, is not representable. Such a value would match no view.
- Screens, navigation, theme, map, guides, login roles and mock lists are left out. So is coordinate formatting with `toFixed`.
