# akkeris-detectifier, modelled in Dafny

akkeris-detectifier runs a Detectify security scan on every Akkeris release.
Its release hook does the provisioning, and its periodic reconciler does the
rest of the work. The provisioner:

- gets the app from the Akkeris API;
- posts a pending release status;
- stores the release;
- finds the Detectify domain whose name ends the app's host name;
- creates a scan profile, stores it, starts the scan and records the first
  state.

Every few minutes the reconciler reads the pending scan profiles joined with
their releases. For each profile it takes exactly one of these branches:

- it times the scan out;
- it cleans up a profile that had already finished;
- it polls Detectify and reports a failed poll or an error state;
- when the scan has stopped, it posts the verdict (CVSS below 6 passes),
  archives the full report to S3, stores the report key and deletes the
  profile;
- when the polled state differs from the stored status, it stores the new
  state and posts it to Akkeris as `pending`;
- otherwise it does nothing.

Deletion always removes the profile at Detectify first. Only then does it
soft-delete the profile row and the release row. A handful of read-only pages
serve stored errors, profiles, reports and scan lists.

The project has one module per source file.

- `Util`: option type, JavaScript truthiness, string helpers, and the
  integer-to-text and `parseInt` used for `TIMEOUT_MINUTES`.
- `Akkeris` (`api/akkeris.js`): the callback-URL rule and the four request
  builders, as values of type `Request`.
- `Db` (`db.js`): rows of the three tables kept as sequences in insertion
  order, and the statements as a `Stmt` datatype with its effect `Apply`. The
  queries are functions over the tables, and the class `Store` holds the
  tables that the service updates in place.
- `Effects`: the shared side of both flows. `Event` records one outside call
  or statement together with whether it succeeded. The class `Context` holds
  the store and the ordered trace of events, with the invariant that the
  store equals the replay of the accepted statements of the trace.
- `TaskHandler` (`taskHandler.js`): the reconciler's methods. Each method is
  proved to append exactly a pure `…Steps` function of its inputs and answers
  to the trace. The lemmas about those functions state the deletion order,
  the status writes, the error records and the report key of every branch.
- `Controller` (`controller.js`, `setupDetectifyScan`): the provisioner as
  methods over the same `Context`. Its lemmas cover:
  - the profile row is stored before the scan starts;
  - each error record is linked to the profile exactly when a profile row
    exists;
  - the tables left by a provisioning in which every step succeeded.
- `Views` (the rest of `controller.js`): the UUID check, the error page, the
  profile and report endpoints, the details page with its favicon, and the
  three scan lists. The lemmas connect these to what the two flows store.

Answers from Detectify, Akkeris, S3, the clock, `uuid()` and the database's
acceptance of each statement are parameters: a `World` record per flow. A
rejected statement leaves the tables unchanged.

## Model

| member | source | states |
|---|---|---|
| Util.ParseIntOfIntToString | taskHandler.js:8-9 | `parseInt` of the decimal text of any integer gives that integer back |
| Util.ParseNatural | taskHandler.js:8-9 | `parseInt` reads back the digits of any natural number |
| Util.ParseNegative | taskHandler.js:8-9 | `parseInt` reads back `-` followed by the digits of a positive number as its negation |
| Util.ParseInt | taskHandler.js:8-9 | `parseInt` gives NaN exactly when no digit follows the leading white space and optional sign; the result is never positive after a `-` and never negative otherwise |
| Util.IntToString | taskHandler.js:14 | `toString` of an integer is non-empty digits, preceded by `-` exactly for negatives |
| Akkeris.CallbackUrl | api/akkeris.js:3-5 | unset or empty gives `http://localhost:9000`; a one-line value with an http(s) scheme is kept; any other value gets `https://` in front; the result always ends with the setting and has a scheme |
| Akkeris.CallbackUrlIdempotent | api/akkeris.js:3-5 | feeding the computed callback URL back in as the setting gives the same URL |
| Akkeris.Authorization | api/akkeris.js:9 | the header is `Bearer ` followed by exactly the token |
| Akkeris.GetAppDetails | api/akkeris.js:11-13 | a GET on `<api>/apps/<app>` with the token's bearer header and no body |
| Akkeris.CreateReleaseStatus | api/akkeris.js:15-25 | a POST to the release's statuses URL with a JSON body carrying the state, description, context `security/detectify` and name `Detectify`; an image URL is sent iff the state is `pending` |
| Akkeris.ImageFor | api/akkeris.js:31-40 | `success_sm.png` iff state is `success`, `failure_sm.png` iff `failure`, `pending_sm.png` for every other state |
| Akkeris.UpdateReleaseStatus | api/akkeris.js:27-48 | a PATCH to `<statuses URL>/<statusId>` with the state, description and the state's image under the callback URL; a target URL is sent iff the given one is truthy, and then unchanged |
| Akkeris.UpdateReleaseStatusWithError | api/akkeris.js:50-60 | a PATCH with state `error`, description `Scan failed - <type>`, the failure image, and the error page `<callback>/errors/<id>` as target |
| Akkeris.ErrorLinkIdentifiesError | api/akkeris.js:57 | the error id is the suffix of the error link, and two links are equal iff their ids are |
| Akkeris.VerdictImages | api/akkeris.js:31-58 | an error status shows the same image as a `failure` status; the `fail` verdict the reconciler sends gets the pending image |
| Db.NormalizeArgs | db.js:10-15 | same length; every undefined parameter becomes null and every other parameter is kept |
| Db.NormalizeArgsIdempotent | db.js:10-15 | normalised parameters contain no undefined, and normalising twice changes nothing |
| Db.NewError | db.js:102-112 | the error row has the given id, description and release; its scan_profile is set iff the id passed is non-empty |
| Db.SetStatus | db.js:87-90 | every row with the id gets the new status and update time; every other row is unchanged |
| Db.SetReport | db.js:92-95 | every row with the id gets the report file name and update time; every other row is unchanged |
| Db.MarkProfileDeleted | db.js:97-100 | every row with the id is flagged deleted; every other row is unchanged |
| Db.MarkReleaseDeleted | db.js:56-59 | every release row with the release id is flagged deleted; every other row is unchanged |
| Db.TerminalStatusesNotWorking | db.js:142-149 | `timeout` and `stopped` are not in the pending query's status list |
| Db.Join | db.js:194-195 | a pair is in the inner join iff its profile and release are stored rows with the same release id |
| Db.WhereVisible | db.js:142-149 | a joined pair is kept iff neither its profile nor its release is soft-deleted and the profile's status is a working one |
| Db.InsertNewestFirst | controller.js:264 | inserting into a newest-first list gives a newest-first list with the same elements plus the new one |
| Db.SortNewestFirst | controller.js:264 | the sort by descending `created_at` is newest-first and a permutation of its input |
| Db.SortKeepsSorted | controller.js:264 | sorting a list already ordered newest-first returns it unchanged |
| Db.JoinOneCount | db.js:194-195 | joining one profile row yields each matching release row as often as that release row is stored |
| Db.JoinCount | db.js:194-195 | the inner join holds each matching pair as many times as the profile row occurs times the release row occurs |
| Db.WhereVisibleCount | db.js:142-149 | the filter keeps every visible pair with its multiplicity and drops the rest |
| Db.PendingCount | db.js:118-154 | the pending query returns each visible, matching pair exactly (profile occurrences × release occurrences) times |
| Db.GetPendingProfiles | db.js:118-154 | a pair is returned iff its rows are joined, neither is deleted and the profile's status is one of the seven working statuses; the list is newest-first and, counted with multiplicity, exactly the filtered join |
| Db.GetRunningScans | db.js:156-181 | the running-scans query returns the same rows as the pending query |
| Db.GetAllScans | db.js:183-200 | a pair is returned iff its rows are joined, deleted or not; the list is newest-first and, counted with multiplicity, exactly the join |
| Db.FirstWithId | db.js:79 | the first joined pair whose profile has the id, and none iff no such pair exists |
| Db.GetScanProfile | db.js:61-80 | a stored, joined pair whose profile has the id; none iff no profile with that id has a release row |
| Db.GetError | db.js:114-116 | the first stored error row with the id; none iff no error row has the id |
| Db.StoredErrorFound | db.js:102-116 | an error stored under a new id is what a later lookup of that id returns |
| Db.DeletedProfileNeverPending | db.js:97-100 | once a profile is soft-deleted, no pending row carries its id |
| Db.DeletedReleaseNeverPending | db.js:56-59 | once a release is soft-deleted, no pending row belongs to it |
| Db.DeletedProfileAndReleaseNeverPending | db.js:142 | after both soft-deletes, neither the profile nor the release appears among pending rows |
| Db.TimedOutProfileNeverPending | db.js:143-149 | a profile whose status was set to `timeout` is not pending |
| Db.Store.StoreRelease | db.js:51-54 | the release row is appended; the other tables are unchanged |
| Db.Store.StoreScanProfile | db.js:82-85 | the profile row is appended; the other tables are unchanged |
| Db.Store.UpdateScanProfileStatus | db.js:87-90 | the profiles become `SetStatus` of the old profiles; the other tables are unchanged |
| Db.Store.UpdateScanProfileReport | db.js:92-95 | the profiles become `SetReport` of the old profiles; the other tables are unchanged |
| Db.Store.DeleteScanProfile | db.js:97-100 | the profiles become `MarkProfileDeleted` of the old profiles; the other tables are unchanged |
| Db.Store.DeleteRelease | db.js:56-59 | the releases become `MarkReleaseDeleted` of the old releases; the other tables are unchanged |
| Db.Store.StoreError | db.js:102-112 | the error row is appended; the other tables are unchanged |
| Effects.ErrorReportSteps | controller.js:13-16 | the error row is written first; the error status is posted only if that write succeeded |
| TaskHandler.TimeoutMinutes | taskHandler.js:8-9 | 50 when the setting is unset or not an integer, otherwise the parsed integer |
| TaskHandler.TimeoutSettingRoundTrip | taskHandler.js:8-9 | setting `TIMEOUT_MINUTES` to the text of n gives a timeout of n minutes, for every n of magnitude below 2^53, where JavaScript numbers are exact |
| TaskHandler.Configure | taskHandler.js:8-18 | the Akkeris API is kept, the callback URL follows `CallbackUrl`, and an unset timeout gives 50 minutes |
| TaskHandler.Verdict | taskHandler.js:121-129 | `success` iff the report's `cvss` is `null`, a boolean or a number below 6 (the values JavaScript's `<` compares as below 6); `fail` iff it is absent or a number of at least 6 |
| TaskHandler.TimedOut | taskHandler.js:67-70 | a profile times out only once strictly more than the timeout, in milliseconds, has passed since its row was created; with a non-negative timeout, never at or before the creation time |
| TaskHandler.TimedOutStays | taskHandler.js:67-70 | once a profile has timed out it stays timed out at every later clock reading |
| TaskHandler.ArchiveKey | taskHandler.js:137 | the key is `<provider token>_<clock>.json`, and the clock text can be read back from it |
| TaskHandler.ArchiveKeysDistinct | taskHandler.js:137 | two archive keys of the same profile are equal iff they were made at the same clock reading |
| TaskHandler.DeleteProfile | taskHandler.js:21-39 | the trace grows by exactly the deletion steps, and the store stays the replay of the trace |
| TaskHandler.ReportError | taskHandler.js:42-52 | the trace grows by the error record, the error status when the record was stored, and the deletion steps |
| TaskHandler.UpdateProfileStatus | taskHandler.js:55-63 | the trace grows by one status write for the profile's id, whether or not it is accepted |
| TaskHandler.ProcessScanProfile | taskHandler.js:66-160 | the trace grows by exactly the steps of the branch the clock, stored status and answers select |
| TaskHandler.ActOnState | taskHandler.js:83-159 | the trace grows by the steps chosen by the polled state: error, completion, progress or nothing |
| TaskHandler.Complete | taskHandler.js:100-149 | the trace grows by the report-fetch error path, or by the verdict steps followed by the archive steps |
| TaskHandler.PostVerdict | taskHandler.js:117-133 | the trace grows by the verdict post, followed by the status write only when the post succeeded |
| TaskHandler.Archive | taskHandler.js:135-148 | the trace grows by the upload, followed by the key write and then deletion only when the earlier step succeeded |
| TaskHandler.Run | taskHandler.js:163-177 | a failed listing adds nothing; otherwise every profile the pending query returned is processed in order |
| TaskHandler.ProcessAll | taskHandler.js:176 | the trace grows by each listed profile's steps in list order |
| TaskHandler.DeleteProtocol | taskHandler.js:21-39 | the Detectify delete comes first; nothing is written when it fails, and the release is not soft-deleted when the profile soft-delete fails |
| TaskHandler.DeleteCounts | taskHandler.js:21-39 | deletion writes no status and records no error |
| TaskHandler.DeleteFlags | taskHandler.js:21-39 | deletion always attempts the Detectify delete, never polls, never writes a report key, and writes nothing but soft-deletes |
| TaskHandler.DeleteOwn | taskHandler.js:21-39 | every deletion step addresses the profile's own token, id or release |
| TaskHandler.ReportErrorShape | taskHandler.js:42-52 | the error record comes first, linked by the provider token; Akkeris is contacted iff the record was stored |
| TaskHandler.ReportErrorCounts | taskHandler.js:42-52 | reporting an error records exactly one error and writes no status |
| TaskHandler.ReportErrorFlags | taskHandler.js:42-52 | reporting an error always attempts deletion, never polls and never writes a report key |
| TaskHandler.ReportErrorOrdered | taskHandler.js:42-52 | reporting an error soft-deletes only after a successful Detectify delete |
| TaskHandler.ReportErrorOwn | taskHandler.js:42-52 | every step of the error report concerns the profile itself |
| TaskHandler.VerdictCounts | taskHandler.js:117-133 | the verdict status is written iff the post succeeded; no error is recorded |
| TaskHandler.VerdictFlags | taskHandler.js:117-133 | posting the verdict neither deletes, polls nor writes a report key |
| TaskHandler.VerdictOwn | taskHandler.js:117-133 | the verdict steps concern only the profile's release status and row |
| TaskHandler.KeyCounts | taskHandler.js:139-147 | storing the key writes no status and records no error |
| TaskHandler.KeyFlags | taskHandler.js:139-147 | the key is always written; deletion is attempted iff the key write succeeded |
| TaskHandler.KeyOrdered | taskHandler.js:139-147 | storing the key keeps the deletion order and, for a key under the profile's token, concerns only the profile |
| TaskHandler.ArchiveCounts | taskHandler.js:135-148 | archiving writes no status and records no error |
| TaskHandler.ArchiveFlags | taskHandler.js:135-148 | a key is written iff the upload succeeded, and deletion is attempted iff the key write also succeeded |
| TaskHandler.ArchiveOrdered | taskHandler.js:135-148 | archiving keeps the deletion order and concerns only the profile |
| TaskHandler.ProcessOrdered | taskHandler.js:66-160 | on every branch, a profile row is soft-deleted only right after Detectify accepted the delete, and a release row only right after that |
| TaskHandler.PolledOrdered | taskHandler.js:83-159 | the deletion order holds on every branch after the poll |
| TaskHandler.CompletedOrdered | taskHandler.js:100-149 | the deletion order holds on both completion branches |
| TaskHandler.ProcessOwn | taskHandler.js:66-160 | every step taken for a profile concerns that profile, its release or its release status |
| TaskHandler.PolledOwn | taskHandler.js:83-159 | every step after the poll concerns the polled profile |
| TaskHandler.CompletedOwn | taskHandler.js:100-149 | every completion step concerns the completed profile |
| TaskHandler.TimeoutPath | taskHandler.js:69-76 | a timed-out profile first records the timeout message; it is never polled; the `timeout` status write sits between two deletion attempts |
| TaskHandler.TimeoutCounts | taskHandler.js:69-76 | a timeout writes exactly the status `timeout` and records exactly one error |
| TaskHandler.FinishedPath | taskHandler.js:78-81 | a profile already at success, fail or error is only deleted: no poll, no status, no error |
| TaskHandler.ErrorStatePath | taskHandler.js:84-98 | a failed poll or an error state records one error with the matching description, writes no status and attempts deletion |
| TaskHandler.MissingReportPath | taskHandler.js:104-113 | a stopped scan whose report cannot be fetched records the report-fetch error |
| TaskHandler.VerdictPath | taskHandler.js:115-129 | a stopped scan with a report posts the verdict's state with the `/reports/<profile>` link |
| TaskHandler.CompletedCounts | taskHandler.js:100-149 | completion writes the verdict iff the report came and the post succeeded, and records an error iff the report did not come |
| TaskHandler.CompletedFlags | taskHandler.js:100-149 | completion deletes iff the report failed or both upload and key write succeeded, and writes a key iff the upload succeeded |
| TaskHandler.StoppedCounts | taskHandler.js:100-149 | the same status and error counts for the whole handler when the poll says `stopped` |
| TaskHandler.StoppedFlags | taskHandler.js:100-149 | the same deletion and key conditions for the whole handler when the poll says `stopped` |
| TaskHandler.ProgressPath | taskHandler.js:151-159 | any other state is written and echoed as `pending` without a link iff it differs from the stored status; nothing is deleted and no error is recorded |
| TaskHandler.FirstEvent | taskHandler.js:66-86 | the first step records an error iff the profile timed out, and polls iff it neither timed out nor had finished |
| TaskHandler.AtMostOneError | taskHandler.js:66-160 | one pass over a profile records at most one error |
| TaskHandler.DeletionRetires | taskHandler.js:30-32 | after a fully successful deletion, neither the profile nor its release is pending any more |
| TaskHandler.StatusesKept | taskHandler.js:66-160 | a pass that writes no status leaves every profile's stored status as it was |
| TaskHandler.SweepOrdered | taskHandler.js:163-177 | a whole sweep keeps the deletion order |
| TaskHandler.SweepOwn | taskHandler.js:163-177 | every step of a sweep concerns one of the listed profiles, and a sweep records at most one error per profile |
| Controller.WellFormed | controller.js:28-34 | the hook is accepted iff it has a non-empty app key, the action `released`, a release with a non-empty id and a non-empty token header |
| Controller.Accept | controller.js:28-41 | a well-formed hook yields the non-empty token, app and release id taken from the header and payload |
| Controller.MatchDomain | controller.js:79 | a match is always an index into the domain listing |
| Controller.MatchDomainFirst | controller.js:79-84 | the match is the first domain whose name ends the host; none iff no domain name ends it |
| Controller.PlainSuffixMatches | controller.js:79 | a host made of any prefix plus the first domain's name selects that domain |
| Controller.FirstMatchWins | controller.js:79 | whenever some domain matches, a domain at or before it is chosen |
| Controller.ProfileName | api/detectify.js:15 | the Detectify profile is named `akkeris-` followed by the host |
| Controller.SetupDetectifyScan | controller.js:25-128 | 422 with the format message iff the hook is malformed, with nothing done; otherwise 200 `OK` and the trace grows by exactly the provisioning steps |
| Controller.Provision | controller.js:50-128 | the trace grows by the app lookup and, when it answered, the release steps |
| Controller.RegisterRelease | controller.js:58-128 | the trace grows by the pending status, the release row when a status id came back, and the domain steps when that row was stored |
| Controller.FindDomain | controller.js:69-128 | the trace grows by the domain listing, then the error report or the domain selection; without a response, nothing follows |
| Controller.SelectDomain | controller.js:77-128 | no matching domain reports the missing domain; otherwise the profile steps for the first match follow |
| Controller.CreateProfile | controller.js:86-128 | the trace grows by the create call, then the error report, or the profile row and the start steps |
| Controller.StartScanning | controller.js:99-128 | the trace grows by the start call, then the error report or the status steps |
| Controller.FetchStatus | controller.js:108-125 | the trace grows by the status call, then the error report, or the pending echo and the status write |
| Controller.ReportServiceError | controller.js:11-20 | the trace grows by the error record and, when it was stored, the error status |
| Controller.ServiceErrorLinks | controller.js:11-20 | reporting an error inserts no profile and links every error record to the given id |
| Controller.StatusShape | controller.js:108-125 | the status steps start no scan, insert no profile and link errors to the profile id |
| Controller.StartShape | controller.js:99-106 | the start call comes first and is the only start |
| Controller.ProfileOrdered | controller.js:87-106 | a scan starts only right after its profile row was stored, as `profile_created` and with the same token |
| Controller.SelectOrdered | controller.js:77-106 | the same holds from the domain match onward |
| Controller.DomainOrdered | controller.js:69-106 | the same holds from the domain listing onward |
| Controller.ReleaseOrdered | controller.js:58-106 | the same holds from the pending status onward |
| Controller.ProvisionOrdered | controller.js:50-106 | over a whole provisioning, a scan starts only right after its profile row was stored |
| Controller.ProfileLinked | controller.js:87-113 | an error record links the new profile's id iff its row was stored earlier, and is unlinked otherwise |
| Controller.SelectLinked | controller.js:78-113 | the same linking holds from the domain match onward |
| Controller.DomainLinked | controller.js:69-113 | the same linking holds from the domain listing onward |
| Controller.ReleaseLinked | controller.js:58-113 | the same linking holds from the pending status onward |
| Controller.ProvisionLinked | controller.js:50-113 | over a whole provisioning, an error names the profile exactly when a profile row exists |
| Controller.ServiceErrorStored | controller.js:13-16 | a stored error report appends exactly the error row and changes no other table |
| Controller.StartedTables | controller.js:100-125 | after the scan starts, the tables change only by the status write, and only when it was accepted |
| Controller.ProvisionedTables | controller.js:50-125 | a provisioning whose steps all succeed adds the release row and the profile row carrying the first state |
| Controller.ProvisionedPending | controller.js:96-125 | the new scan is pending iff its first state is a working status (or was not written); otherwise no pending row has its id |
| Views.IsUuid | controller.js:9 | an id that passes the check is 36 characters, each a hex digit or a dash, so it can be passed to a query unchanged |
| Views.UuidFromGroups | controller.js:9 | any text of the form 8-4-4-4-12 hex digits, version 4 and variant 8, 9, a or b passes the check |
| Views.UuidGroups | controller.js:9 | a text that passes the check has exactly that form |
| Views.UuidIgnoresCase | controller.js:9 | the check accepts a text iff it accepts its upper-case form |
| Views.RenderError | controller.js:133-158 | the invalid-id page iff the id is missing or not a UUID; the not-found page iff the query failed; no reply iff no row has the id; otherwise the page of that row |
| Views.ErrorPageLacksApp | controller.js:148-157 | for every stored error, the page as written shows no app name, scan status or creation time, and links `/apps/undefined` |
| Views.RenderErrorJoined | controller.js:133-158 | the same guards, with a page showing the description and release of the stored row |
| Views.JoinedPageNamesApp | controller.js:152-155 | the joined page names the app of the error's release and links to it |
| Views.ReportedErrorNamesApp | controller.js:148-157 | an error just reported by the provisioner is shown naming its release's app, where the page as written names none |
| Views.GetProfile | controller.js:163-178 | 404 iff the id is missing or the query failed; otherwise a stored profile with that id joined with a stored release of the same release id, or nothing iff there is none |
| Views.GetReport | controller.js:183-207 | 404 for a missing id or failed query; 400 iff the profile has no report file; 500 iff the object is missing; otherwise the stored object's body |
| Views.KeyStored | db.js:92-95 | after the key write, every row of the profile carries the key |
| Views.KeyKeptByProfileDeletion | db.js:97-100 | a profile soft-delete keeps every stored report key |
| Views.KeyKeptByReleaseDeletion | db.js:56-59 | a release soft-delete keeps every stored report key |
| Views.KeyKeptByDeletions | taskHandler.js:21-39 | a run of Detectify calls and soft-deletes keeps every stored report key |
| Views.ServedReport | controller.js:197-199 | a profile carrying a key whose object exists is answered with that object |
| Views.ArchiveReplay | taskHandler.js:135-147 | a successful archive replays as the key write followed by the deletion |
| Views.KeyOutlivesDeletion | taskHandler.js:139-147 | the stored key survives the deletion that follows it |
| Views.ArchivedReportServed | taskHandler.js:135-147 | after a successful archive, the report link serves the archived report body |
| Views.ProvisionedProfileFound | controller.js:163-178 | a profile created by a successful provisioning is returned by the profile endpoint |
| Views.Favicon | controller.js:223-236 | the success icon iff `success`, the pending icon iff `running` or `starting`, and the failure icon for every other status |
| Views.RenderDetails | controller.js:209-252 | 404 iff the id is missing or the query failed; no reply iff no profile with the id has a release; otherwise a page of that profile whose favicon matches its status |
| Views.RenderCurrentScans | controller.js:254-271 | 500 iff the query failed; otherwise the running scans, newest first: exactly the joined, undeleted, working rows |
| Views.RenderAllScans | controller.js:273-290 | 500 iff the query failed; otherwise every joined pair, newest first |
| Views.GetScans | controller.js:293-304 | 500 iff the query failed; otherwise the running scans, newest first, as JSON |
| Views.ProvisionedScanListed | controller.js:293-304 | a newly provisioned scan is listed as running iff its first state is a working status (or was not written) |

## Left out

- Concurrency: `run` starts every `processScanProfile` without awaiting it. The model processes the listed profiles one after another in list order. Interleavings between profiles are not modelled.
- The pending list read by `run` is fixed before the sweep. A sweep does not re-read it.
- Logging, and the text of `err.message`, are not modelled. Error texts built from `JSON.stringify(err.response.data)` take the response body as a ready-made string.
- URL parsing (`new url.URL(app.web_url).hostname`) is not modelled: the host name is an answer in the provisioning `World`, and none stands for a URL without one.
- `JSON.parse` of the stored report and `JSON.stringify(fullReport)` are not modelled: a report is its `cvss` member (absent, `null`, a boolean or a number) plus the archived text, and `getReport` answers with the stored text.
- TaskHandler.Verdict: a `cvss` sent as a string, an array or an object is not modelled; JavaScript converts it to a number before comparing, so `""` and numeric strings below 6 would pass.
- TaskHandler.TimeoutMinutes: integers are exact in the model. JavaScript rounds a parsed value beyond 2^53, and a digit run beyond the range of doubles parses to `Infinity`, which is not an integer, so the source then falls back to 50; neither is modelled.
- Util.IntToString: JavaScript prints integers of magnitude 10^21 or more in exponent form (`1e+21`); the model always prints every digit.
- Undefined statement parameters are not modelled: a successful poll always carries a state string, so a reply without `state`, whose status write (`taskHandler.js:151-152`) would store NULL, has no counterpart. `Db.NormalizeArgs` states the `undefined`-to-NULL rule on its own, and the statements take plain strings.
- The database's own clock (`now()`, `created_at` defaults) reads the caller's `now`. Primary keys and the schema in `create.sql` are not enforced, so an insert with a duplicate id is appended like any other.
- The `payload` column of `releases` and every column no operation reads are not modelled. Query projections are full rows rather than the selected columns, except in the error page, where the missing columns are the point of the finding below.
- The order of rows with equal `created_at` is not pinned down beyond insertion order.
- `api/detectify.js` and `api/s3.js` are oracles: each answer is a field of `World`. Their HTTP details (URLs, the `X-Detectify-Key` header) are not modelled.
- Express and Pug are not modelled. A page is a record of the values handed to the template, and a JSON reply is its value. `AKKERIS_UI` is the `ui` parameter. `Unanswered` stands for a handler that throws before replying: the TypeError on a missing row in `renderError` and `renderDetails`.
- `init` (`db.js:27-49`), the router, authentication, the worker's timer and the static files are not part of this model.
- TaskHandler.Configure: the timeout is stated only for an unset setting; the other settings follow `TimeoutMinutes`, whose own contract covers them.
- Views.RenderDetails: the contract pins the profile id, the status, the favicon and the app URL of the page. The remaining fields, copied from the same row, are not stated.
- Views.GetProfile: the returned pair is pinned by its id, by its profile and release being stored rows with the same release id, and not by its position among rows with the same id.

Behaviour of the code worth noting:

- The verdict threshold is the literal `6` (`taskHandler.js:121`), the same for every profile.
- On a timeout the handler reports the error, which already deletes the profile. It then writes the `timeout` status and runs the deletion a second time (`taskHandler.js:72-74`).
- No error path writes an `error` status. Only the error row and the release status record the failure.
- The verdict status is written only after the verdict post succeeded, and before archiving (`taskHandler.js:118-133`). A failed post leaves the stored status unchanged.
- The reconciler's error row is linked by the provider token rather than by the profile id (`taskHandler.js:45`).
- The domain chosen is the first one in listing order whose name ends the host (`controller.js:79`).
- The `fail` verdict gets the pending image, because the image switch tests for `failure` (`api/akkeris.js:31-40`).
- A provider failure without a response object makes the provisioner's catch block throw. That flow then ends without recording an error, which the `NoResponse` answer models.
- A failed `storeRelease`, `storeScanProfile` or final status write is not caught, so the provisioner ends there. A rejected statement in the model stops the flow at the same points.

## Findings

| source | as written | input that shows it | evidently intended | confidence | as-written member | corrected member |
|---|---|---|---|---|---|---|
| controller.js:148-157 | the error page reads the app name, scan status and profile creation time from the error row, but the error query (`db.js:114-116`) selects only the error's own columns, so these show as undefined and the app links point at `/apps/undefined` | any stored error whose id is a valid UUID, such as one the provisioner records after a domain lookup fails | the page names the app of the error's release, with working app and release links | high, not executed | Views.ErrorPageLacksApp | Views.RenderErrorJoined, Views.ReportedErrorNamesApp |
