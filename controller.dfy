/** The web side of the service: the release hook that provisions a scan
    (`setupDetectifyScan`), and the pages and JSON answers that read the
    store.

    Provisioning is modelled like the reconciler: the outside world's
    answers are an oracle `World`, the handler is a method whose events are
    exactly `ProvisionSteps`, and the lemmas state what those events are.
    The read-only handlers are functions from the request, the store and the
    answers of object storage to the HTTP outcome. */
module Controller {
  import opened Util
  import Akkeris
  import Db
  import opened Effects

  const PayloadError := "Payload did not match expected format"
  const PendingCreation := "Detectify scan pending creation"
  const ServiceErrorType := "Detectify Service Error"
  const DomainsFailed := "Error getting list of domains from Detectify"
  const CreateFailed := "Error - Could not create Detectify scan profile"
  const StartFailed := "Error - Could not start Detectify scan on scan profile"
  const StatusFailed := "Error - Could not get Detectify scan status on scan profile"
  const ProfileCreated := "profile_created"

  // ---------------------------------------------------------------------
  // The release hook

  datatype ReleaseRef = ReleaseRef(id: Option<string>)

  /** The fields of a release hook body the handler reads; `None` is a
      missing field. */
  datatype Hook = Hook(key: Option<string>, action: Option<string>, release: Option<ReleaseRef>)

  /** The check made before anything else: an app key, the `released`
      action, a release id and the platform token header. */
  predicate WellFormed(h: Hook, header: Option<string>)
    ensures WellFormed(h, header) <==>
      && header.Some? && header.value != ""
      && h.key.Some? && h.key.value != ""
      && h.action == Some("released")
      && h.release.Some? && h.release.value.id.Some? && h.release.value.id.value != ""
  {
    && Truthy(h.key)
    && h.action == Some("released")
    && h.release.Some?
    && Truthy(h.release.value.id)
    && Truthy(header)
  }

  /** What an accepted hook names: the caller's token, the app and the
      release. */
  datatype Accepted = Accepted(token: string, app: string, releaseId: string)

  function Accept(h: Hook, header: Option<string>): (a: Accepted)
    requires WellFormed(h, header)
    ensures a.token != "" && a.app != "" && a.releaseId != ""
    ensures Some(a.token) == header && Some(a.app) == h.key && Some(a.releaseId) == h.release.value.id
  {
    Accepted(header.value, h.key.value, h.release.value.id.value)
  }

  // ---------------------------------------------------------------------
  // The scan provider's answers

  /** A provider reply: a value, an HTTP error carrying (the JSON text of)
      its truthy response data, or a failure without any response. Reading
      `err.response.data` of the last one throws inside the handler's catch
      block, which ends the handler without an error report. */
  datatype Answer<T> = Ok(value: T) | HttpError(data: Option<string>) | NoResponse

  /** The app as the platform describes it; `hostname` is what parsing its
      web URL gives (`None`: the URL does not parse, which ends the
      handler). */
  datatype App = App(webUrl: string, hostname: Option<string>)

  datatype Domain = Domain(name: string, token: string)

  /** The scan profile the provider created. */
  datatype ScanProfile = ScanProfile(name: string, endpoint: string, token: string)

  /** The outside world's answers to one hook, one field per call site:
      `app` and `statusId` are the platform's replies (`None`: the call
      failed), `releaseRow`, `profileRow` and `statusRow` the store's answers
      to the three statements, `profileId` and `errorId` the generated ids,
      `posted` the platform's answer to the pending update. */
  datatype World = World(
    now: int,
    app: Option<App>,
    statusId: Option<string>,
    releaseRow: bool,
    domains: Answer<seq<Domain>>,
    profile: Answer<ScanProfile>,
    profileId: string,
    profileRow: bool,
    started: Answer<()>,
    scanStatus: Answer<string>,
    posted: bool,
    statusRow: bool,
    errorId: string,
    errorRow: bool,
    errorPosted: bool)

  /** The index of the first domain whose name is a suffix of the host
      name (`findIndex` with `endsWith`); `MatchDomainFirst` states it. */
  function MatchDomain(host: string, domains: seq<Domain>): (r: Option<nat>)
    ensures r.Some? ==> r.value < |domains|
  {
    if domains == [] then None
    else if EndsWith(host, domains[0].name) then Some(0)
    else
      match MatchDomain(host, domains[1..])
      case None => None
      case Some(i) => Some(i + 1)
  }

  /** The match is the first domain whose name is a plain string suffix of
      the host name, with no check for a dot before it; there is none
      exactly when no name is such a suffix. */
  lemma {:induction false} MatchDomainFirst(host: string, domains: seq<Domain>)
    ensures var r := MatchDomain(host, domains);
            && (r.Some? ==> EndsWith(host, domains[r.value].name))
            && (r.Some? ==> forall k :: 0 <= k < r.value ==> !EndsWith(host, domains[k].name))
            && (r.None? <==> forall k :: 0 <= k < |domains| ==> !EndsWith(host, domains[k].name))
  {
    if domains != [] && !EndsWith(host, domains[0].name) {
      MatchDomainFirst(host, domains[1..]);
      forall k | 1 <= k < |domains| ensures domains[k] == domains[1..][k - 1] {
      }
    }
  }

  /** Any host name ending in a domain's name matches it, whatever comes
      before: `evil-example.com` is taken for `example.com`. */
  lemma PlainSuffixMatches(prefix: string, d: Domain, rest: seq<Domain>)
    ensures MatchDomain(prefix + d.name, [d] + rest) == Some(0)
  {
    var host := prefix + d.name;
    assert host[|host| - |d.name|..] == d.name;
  }

  /** The first match wins, even over a longer suffix later in the list. */
  lemma FirstMatchWins(host: string, domains: seq<Domain>, k: nat)
    requires k < |domains| && EndsWith(host, domains[k].name)
    ensures MatchDomain(host, domains).Some? && MatchDomain(host, domains).value <= k
  {
    MatchDomainFirst(host, domains);
  }

  /** The name the provider gives a new scan profile. */
  function ProfileName(host: string): (name: string)
    ensures StartsWith(name, "akkeris-") && name[|"akkeris-"|..] == host
  {
    var name := "akkeris-" + host;
    assert name[..8] == "akkeris-";
    name
  }

  /** An error message, followed by the provider's response data when there
      is any. */
  function Explain(message: string, data: Option<string>): string {
    match data
    case None => message
    case Some(text) => message + ": " + text
  }

  function NoDomainMessage(app: string, webUrl: string): string {
    app + " URL (" + webUrl + ") base domain could not be found in the list of domains associated with the given Detectify API key"
  }

  function PendingRequest(cfg: Config, a: Accepted): Akkeris.Request {
    Akkeris.CreateReleaseStatus(cfg.akkerisApi, cfg.callbackUrl, a.token, a.app, a.releaseId,
                                "pending", PendingCreation)
  }

  function ScanStateRequest(cfg: Config, target: Target, state: string): Akkeris.Request {
    Akkeris.UpdateReleaseStatus(cfg.akkerisApi, cfg.callbackUrl, target.token, target.app,
                                target.releaseId, target.statusId, "pending", "Detectify scan " + state, None)
  }

  // ---------------------------------------------------------------------
  // The events of one accepted hook

  /** An error report of the provisioner; `link` is the scan profile id the
      error row refers to, empty before a profile row exists. */
  function ServiceErrorSteps(cfg: Config, target: Target, description: string, link: string, w: World): seq<Event> {
    ErrorReportSteps(cfg, target, w.errorId, description, ServiceErrorType, link, w.now, w.errorRow, w.errorPosted)
  }

  /** App details first; a failed call ends the handler. */
  function ProvisionSteps(cfg: Config, a: Accepted, w: World): seq<Event> {
    [Platform(Akkeris.GetAppDetails(cfg.akkerisApi, a.token, a.app), w.app.Some?)]
    + match w.app
      case None => []
      case Some(app) => ReleaseSteps(cfg, a, app, w)
  }

  /** The pending release status, then the release row; a failure of either
      ends the handler. */
  function ReleaseSteps(cfg: Config, a: Accepted, app: App, w: World): seq<Event> {
    [Platform(PendingRequest(cfg, a), w.statusId.Some?)]
    + match w.statusId
      case None => []
      case Some(statusId) =>
        [Write(Db.StoreRelease(a.releaseId, a.app, statusId, a.token, w.now), w.releaseRow)]
        + if !w.releaseRow then [] else DomainSteps(cfg, Target(a.token, a.app, a.releaseId, statusId), app, w)
  }

  /** The provider's domain list. */
  function DomainSteps(cfg: Config, target: Target, app: App, w: World): seq<Event> {
    [Provider(GetDomains, w.domains.Ok?)]
    + match w.domains
      case NoResponse => []
      case HttpError(data) => ServiceErrorSteps(cfg, target, Explain(DomainsFailed, data), "", w)
      case Ok(domains) => SelectSteps(cfg, target, app, domains, w)
  }

  /** The first domain the app's host name ends with; none is an error. */
  function SelectSteps(cfg: Config, target: Target, app: App, domains: seq<Domain>, w: World): seq<Event> {
    match app.hostname
    case None => []
    case Some(host) =>
      match MatchDomain(host, domains)
      case None => ServiceErrorSteps(cfg, target, NoDomainMessage(target.app, app.webUrl), "", w)
      case Some(i) => ProfileSteps(cfg, target, host, domains[i].token, w)
  }

  /** The provider profile for the host, and its row at `profile_created`. */
  function ProfileSteps(cfg: Config, target: Target, host: string, domainToken: string, w: World): seq<Event> {
    [Provider(CreateScanProfile(domainToken, ProfileName(host), host), w.profile.Ok?)]
    + match w.profile
      case NoResponse => []
      case HttpError(data) => ServiceErrorSteps(cfg, target, Explain(CreateFailed, data), "", w)
      case Ok(sp) =>
        [Write(Db.StoreScanProfile(w.profileId, target.releaseId, sp.name, sp.endpoint, ProfileCreated, sp.token, w.now),
               w.profileRow)]
        + if !w.profileRow then [] else StartSteps(cfg, target, sp, w)
  }

  /** The scan start; from here on an error refers to the new profile. */
  function StartSteps(cfg: Config, target: Target, sp: ScanProfile, w: World): seq<Event> {
    [Provider(StartScan(sp.token), w.started.Ok?)]
    + match w.started
      case NoResponse => []
      case HttpError(data) => ServiceErrorSteps(cfg, target, Explain(StartFailed, data), w.profileId, w)
      case Ok(_) => StatusSteps(cfg, target, sp, w)
  }

  /** The scan's first state, echoed to the platform and then stored
      whatever the platform answered. */
  function StatusSteps(cfg: Config, target: Target, sp: ScanProfile, w: World): seq<Event> {
    [Provider(GetScanStatus(sp.token), w.scanStatus.Ok?)]
    + match w.scanStatus
      case NoResponse => []
      case HttpError(data) => ServiceErrorSteps(cfg, target, Explain(StatusFailed, data), w.profileId, w)
      case Ok(state) =>
        [Platform(ScanStateRequest(cfg, target, state), w.posted),
         Write(Db.UpdateScanProfileStatus(w.profileId, state, w.now), w.statusRow)]
  }

  // ---------------------------------------------------------------------
  // The handler, step by step.

  /** The hook is answered first: 422 with a message when it is malformed,
      and then nothing else happens; 200 otherwise, before provisioning. */
  method SetupDetectifyScan(ctx: Context, cfg: Config, h: Hook, header: Option<string>, w: World)
    returns (code: int, body: string)
    requires ctx.Valid()
    modifies ctx, ctx.db
    ensures ctx.Valid()
    ensures code == 422 <==> !WellFormed(h, header)
    ensures code == 422 ==> body == PayloadError && ctx.trace == old(ctx.trace)
    ensures code != 422 ==> code == 200 && body == "OK"
    ensures code != 422 ==> ctx.trace == old(ctx.trace) + ProvisionSteps(cfg, Accept(h, header), w)
  {
    if !WellFormed(h, header) {
      return 422, PayloadError;
    }
    code, body := 200, "OK";
    Provision(ctx, cfg, Accept(h, header), w);
  }

  method Provision(ctx: Context, cfg: Config, a: Accepted, w: World)
    requires ctx.Valid()
    modifies ctx, ctx.db
    ensures ctx.Valid() && ctx.trace == old(ctx.trace) + ProvisionSteps(cfg, a, w)
  {
    ghost var start := ctx.trace;
    ghost var first := [Platform(Akkeris.GetAppDetails(cfg.akkerisApi, a.token, a.app), w.app.Some?)];
    ctx.Record(Platform(Akkeris.GetAppDetails(cfg.akkerisApi, a.token, a.app), w.app.Some?));
    if w.app.Some? {
      RegisterRelease(ctx, cfg, a, w.app.value, w);
      AppendAssoc(start, first, ReleaseSteps(cfg, a, w.app.value, w));
    }
  }

  method RegisterRelease(ctx: Context, cfg: Config, a: Accepted, app: App, w: World)
    requires ctx.Valid()
    modifies ctx, ctx.db
    ensures ctx.Valid() && ctx.trace == old(ctx.trace) + ReleaseSteps(cfg, a, app, w)
  {
    ghost var start := ctx.trace;
    ghost var first := [Platform(PendingRequest(cfg, a), w.statusId.Some?)];
    ctx.Record(Platform(PendingRequest(cfg, a), w.statusId.Some?));
    if w.statusId.None? {
      return;
    }
    var target := Target(a.token, a.app, a.releaseId, w.statusId.value);
    ghost var row := [Write(Db.StoreRelease(a.releaseId, a.app, target.statusId, a.token, w.now), w.releaseRow)];
    ctx.Execute(Db.StoreRelease(a.releaseId, a.app, target.statusId, a.token, w.now), w.releaseRow);
    if w.releaseRow {
      FindDomain(ctx, cfg, target, app, w);
      AppendAssoc(start + first, row, DomainSteps(cfg, target, app, w));
      AppendAssoc(start, first, row + DomainSteps(cfg, target, app, w));
    } else {
      AppendAssoc(start, first, row);
    }
  }

  method FindDomain(ctx: Context, cfg: Config, target: Target, app: App, w: World)
    requires ctx.Valid()
    modifies ctx, ctx.db
    ensures ctx.Valid() && ctx.trace == old(ctx.trace) + DomainSteps(cfg, target, app, w)
  {
    ghost var start := ctx.trace;
    ghost var first := [Provider(GetDomains, w.domains.Ok?)];
    ctx.Record(Provider(GetDomains, w.domains.Ok?));
    match w.domains {
      case NoResponse =>
      case HttpError(data) =>
        ReportServiceError(ctx, cfg, target, Explain(DomainsFailed, data), "", w);
        AppendAssoc(start, first, ServiceErrorSteps(cfg, target, Explain(DomainsFailed, data), "", w));
      case Ok(domains) =>
        SelectDomain(ctx, cfg, target, app, domains, w);
        AppendAssoc(start, first, SelectSteps(cfg, target, app, domains, w));
    }
  }

  method SelectDomain(ctx: Context, cfg: Config, target: Target, app: App, domains: seq<Domain>, w: World)
    requires ctx.Valid()
    modifies ctx, ctx.db
    ensures ctx.Valid() && ctx.trace == old(ctx.trace) + SelectSteps(cfg, target, app, domains, w)
  {
    if app.hostname.None? {
      return;
    }
    var i := MatchDomain(app.hostname.value, domains);
    if i.None? {
      ReportServiceError(ctx, cfg, target, NoDomainMessage(target.app, app.webUrl), "", w);
    } else {
      CreateProfile(ctx, cfg, target, app.hostname.value, domains[i.value].token, w);
    }
  }

  method CreateProfile(ctx: Context, cfg: Config, target: Target, host: string, domainToken: string, w: World)
    requires ctx.Valid()
    modifies ctx, ctx.db
    ensures ctx.Valid() && ctx.trace == old(ctx.trace) + ProfileSteps(cfg, target, host, domainToken, w)
  {
    ghost var start := ctx.trace;
    ghost var first := [Provider(CreateScanProfile(domainToken, ProfileName(host), host), w.profile.Ok?)];
    ctx.Record(Provider(CreateScanProfile(domainToken, ProfileName(host), host), w.profile.Ok?));
    match w.profile {
      case NoResponse =>
      case HttpError(data) =>
        ReportServiceError(ctx, cfg, target, Explain(CreateFailed, data), "", w);
        AppendAssoc(start, first, ServiceErrorSteps(cfg, target, Explain(CreateFailed, data), "", w));
      case Ok(sp) =>
        ghost var row := [Write(Db.StoreScanProfile(w.profileId, target.releaseId, sp.name, sp.endpoint,
                                                    ProfileCreated, sp.token, w.now), w.profileRow)];
        ctx.Execute(Db.StoreScanProfile(w.profileId, target.releaseId, sp.name, sp.endpoint,
                                        ProfileCreated, sp.token, w.now), w.profileRow);
        if w.profileRow {
          StartScanning(ctx, cfg, target, sp, w);
          AppendAssoc(start + first, row, StartSteps(cfg, target, sp, w));
          AppendAssoc(start, first, row + StartSteps(cfg, target, sp, w));
        } else {
          AppendAssoc(start, first, row);
        }
    }
  }

  method StartScanning(ctx: Context, cfg: Config, target: Target, sp: ScanProfile, w: World)
    requires ctx.Valid()
    modifies ctx, ctx.db
    ensures ctx.Valid() && ctx.trace == old(ctx.trace) + StartSteps(cfg, target, sp, w)
  {
    ghost var start := ctx.trace;
    ghost var first := [Provider(StartScan(sp.token), w.started.Ok?)];
    ctx.Record(Provider(StartScan(sp.token), w.started.Ok?));
    match w.started {
      case NoResponse =>
      case HttpError(data) =>
        ReportServiceError(ctx, cfg, target, Explain(StartFailed, data), w.profileId, w);
        AppendAssoc(start, first, ServiceErrorSteps(cfg, target, Explain(StartFailed, data), w.profileId, w));
      case Ok(_) =>
        FetchStatus(ctx, cfg, target, sp, w);
        AppendAssoc(start, first, StatusSteps(cfg, target, sp, w));
    }
  }

  method FetchStatus(ctx: Context, cfg: Config, target: Target, sp: ScanProfile, w: World)
    requires ctx.Valid()
    modifies ctx, ctx.db
    ensures ctx.Valid() && ctx.trace == old(ctx.trace) + StatusSteps(cfg, target, sp, w)
  {
    ghost var start := ctx.trace;
    ghost var first := [Provider(GetScanStatus(sp.token), w.scanStatus.Ok?)];
    ctx.Record(Provider(GetScanStatus(sp.token), w.scanStatus.Ok?));
    match w.scanStatus {
      case NoResponse =>
      case HttpError(data) =>
        ReportServiceError(ctx, cfg, target, Explain(StatusFailed, data), w.profileId, w);
        AppendAssoc(start, first, ServiceErrorSteps(cfg, target, Explain(StatusFailed, data), w.profileId, w));
      case Ok(state) =>
        ghost var echo := Platform(ScanStateRequest(cfg, target, state), w.posted);
        ghost var row := Write(Db.UpdateScanProfileStatus(w.profileId, state, w.now), w.statusRow);
        ctx.Record(Platform(ScanStateRequest(cfg, target, state), w.posted));
        ctx.Execute(Db.UpdateScanProfileStatus(w.profileId, state, w.now), w.statusRow);
        assert ctx.trace == (start + first) + [echo, row];
        AppendAssoc(start, first, [echo, row]);
    }
  }

  method ReportServiceError(ctx: Context, cfg: Config, target: Target, description: string, link: string, w: World)
    requires ctx.Valid()
    modifies ctx, ctx.db
    ensures ctx.Valid() && ctx.trace == old(ctx.trace) + ServiceErrorSteps(cfg, target, description, link, w)
  {
    ctx.Execute(Db.StoreError(w.errorId, description, target.releaseId, link, w.now), w.errorRow);
    if w.errorRow {
      ctx.Record(Platform(ErrorStatusRequest(cfg, target, w.errorId, ServiceErrorType), w.errorPosted));
    }
  }

  // ---------------------------------------------------------------------
  // What provisioning does.

  predicate IsStart(e: Event) {
    e.Provider? && e.call.StartScan?
  }

  predicate IsProfileInsert(e: Event) {
    e.Write? && e.stmt.StoreScanProfile?
  }

  predicate IsErrorWrite(e: Event) {
    e.Write? && e.stmt.StoreError?
  }

  predicate NoStart(es: seq<Event>) {
    forall i :: 0 <= i < |es| ==> !IsStart(es[i])
  }

  /** A scan is started only right after the accepted insert of its profile
      row, at `profile_created`, under the provider token being started. */
  predicate StoredBeforeStart(es: seq<Event>) {
    forall i {:trigger IsStart(es[i])} :: 0 <= i < |es| && IsStart(es[i]) ==>
      && i > 0 && IsProfileInsert(es[i - 1]) && es[i - 1].ok
      && es[i - 1].stmt.status == ProfileCreated && es[i - 1].stmt.token == es[i].call.token
  }

  lemma StoredBeforeStartAfter(pre: seq<Event>, es: seq<Event>)
    requires NoStart(pre) && StoredBeforeStart(es)
    ensures StoredBeforeStart(pre + es)
  {
    var all := pre + es;
    assert forall k :: 0 <= k < |pre| ==> all[k] == pre[k];
    forall i | 0 <= i < |all| && IsStart(all[i])
      ensures i > |pre| && all[i] == es[i - |pre|] && all[i - 1] == es[i - |pre| - 1]
    {
    }
  }

  lemma ServiceErrorNoStart(cfg: Config, target: Target, description: string, link: string, w: World)
    ensures NoStart(ServiceErrorSteps(cfg, target, description, link, w))
  {
  }

  lemma ServiceErrorLinks(cfg: Config, target: Target, description: string, link: string, w: World)
    ensures var es := ServiceErrorSteps(cfg, target, description, link, w);
            NoInsert(es) && AllLinks(es, link)
  {
  }

  lemma NoStartOrdered(es: seq<Event>)
    requires NoStart(es)
    ensures StoredBeforeStart(es)
  {
  }

  lemma StatusShape(cfg: Config, target: Target, sp: ScanProfile, w: World)
    ensures var es := StatusSteps(cfg, target, sp, w);
            NoStart(es) && NoInsert(es) && AllLinks(es, w.profileId)
  {
    match w.scanStatus
    case NoResponse =>
    case HttpError(data) =>
      ServiceErrorNoStart(cfg, target, Explain(StatusFailed, data), w.profileId, w);
      ServiceErrorLinks(cfg, target, Explain(StatusFailed, data), w.profileId, w);
    case Ok(state) =>
  }

  /** The start is the first of its steps, and the only start among them. */
  lemma StartShape(cfg: Config, target: Target, sp: ScanProfile, w: World)
    ensures var es := StartSteps(cfg, target, sp, w);
            && es[0] == Provider(StartScan(sp.token), w.started.Ok?)
            && NoStart(es[1..]) && NoInsert(es) && AllLinks(es, w.profileId)
  {
    var es := StartSteps(cfg, target, sp, w);
    match w.started
    case NoResponse =>
    case HttpError(data) =>
      ServiceErrorNoStart(cfg, target, Explain(StartFailed, data), w.profileId, w);
      ServiceErrorLinks(cfg, target, Explain(StartFailed, data), w.profileId, w);
      assert es[1..] == ServiceErrorSteps(cfg, target, Explain(StartFailed, data), w.profileId, w);
    case Ok(_) =>
      StatusShape(cfg, target, sp, w);
      assert es[1..] == StatusSteps(cfg, target, sp, w);
  }

  lemma ProfileOrdered(cfg: Config, target: Target, host: string, domainToken: string, w: World)
    ensures StoredBeforeStart(ProfileSteps(cfg, target, host, domainToken, w))
  {
    var es := ProfileSteps(cfg, target, host, domainToken, w);
    match w.profile
    case NoResponse =>
    case HttpError(data) =>
      ServiceErrorNoStart(cfg, target, Explain(CreateFailed, data), "", w);
    case Ok(sp) =>
      if w.profileRow {
        var rest := StartSteps(cfg, target, sp, w);
        StartShape(cfg, target, sp, w);
        assert forall k :: 3 <= k < |es| ==> es[k] == rest[1..][k - 3];
        forall i | 0 <= i < |es| && IsStart(es[i]) ensures i == 2 {
        }
      }
  }

  lemma SelectOrdered(cfg: Config, target: Target, app: App, domains: seq<Domain>, w: World)
    ensures StoredBeforeStart(SelectSteps(cfg, target, app, domains, w))
  {
    var es := SelectSteps(cfg, target, app, domains, w);
    if app.hostname.None? {
      assert es == [];
      return;
    }
    var host := app.hostname.value;
    var r := MatchDomain(host, domains);
    if r.None? {
      var err := ServiceErrorSteps(cfg, target, NoDomainMessage(target.app, app.webUrl), "", w);
      ServiceErrorNoStart(cfg, target, NoDomainMessage(target.app, app.webUrl), "", w);
      NoStartOrdered(err);
      assert es == err;
    } else {
      var ps := ProfileSteps(cfg, target, host, domains[r.value].token, w);
      ProfileOrdered(cfg, target, host, domains[r.value].token, w);
      assert es == ps;
    }
  }

  lemma DomainOrdered(cfg: Config, target: Target, app: App, w: World)
    ensures StoredBeforeStart(DomainSteps(cfg, target, app, w))
  {
    var first := [Provider(GetDomains, w.domains.Ok?)];
    match w.domains
    case NoResponse =>
    case HttpError(data) =>
      ServiceErrorNoStart(cfg, target, Explain(DomainsFailed, data), "", w);
      NoStartOrdered(ServiceErrorSteps(cfg, target, Explain(DomainsFailed, data), "", w));
      StoredBeforeStartAfter(first, ServiceErrorSteps(cfg, target, Explain(DomainsFailed, data), "", w));
    case Ok(domains) =>
      SelectOrdered(cfg, target, app, domains, w);
      StoredBeforeStartAfter(first, SelectSteps(cfg, target, app, domains, w));
  }

  lemma ReleaseOrdered(cfg: Config, a: Accepted, app: App, w: World)
    ensures StoredBeforeStart(ReleaseSteps(cfg, a, app, w))
  {
    var e1 := Platform(PendingRequest(cfg, a), w.statusId.Some?);
    if w.statusId.None? {
      StoredBeforeStartAfter([e1], []);
      return;
    }
    var e2 := Write(Db.StoreRelease(a.releaseId, a.app, w.statusId.value, a.token, w.now), w.releaseRow);
    if !w.releaseRow {
      StoredBeforeStartAfter([e2], []);
      StoredBeforeStartAfter([e1], [e2] + []);
      return;
    }
    var rest := DomainSteps(cfg, Target(a.token, a.app, a.releaseId, w.statusId.value), app, w);
    DomainOrdered(cfg, Target(a.token, a.app, a.releaseId, w.statusId.value), app, w);
    StoredBeforeStartAfter([e2], rest);
    StoredBeforeStartAfter([e1], [e2] + rest);
  }

  /** Provisioning starts a scan only right after its profile row was stored
      at `profile_created`. */
  lemma ProvisionOrdered(cfg: Config, a: Accepted, w: World)
    ensures StoredBeforeStart(ProvisionSteps(cfg, a, w))
  {
    var e0 := Platform(Akkeris.GetAppDetails(cfg.akkerisApi, a.token, a.app), w.app.Some?);
    if w.app.None? {
      StoredBeforeStartAfter([e0], []);
      return;
    }
    ReleaseOrdered(cfg, a, w.app.value, w);
    StoredBeforeStartAfter([e0], ReleaseSteps(cfg, a, w.app.value, w));
  }

  predicate NoInsert(es: seq<Event>) {
    forall i :: 0 <= i < |es| ==> !(IsProfileInsert(es[i]) && es[i].ok)
  }

  predicate AllLinks(es: seq<Event>, link: string) {
    forall i :: 0 <= i < |es| && IsErrorWrite(es[i]) ==> es[i].stmt.scanProfileId == link
  }

  predicate InsertedBefore(es: seq<Event>, i: int) {
    exists k :: 0 <= k < i && k < |es| && IsProfileInsert(es[k]) && es[k].ok
  }

  /** Each error row refers to the scan profile id once the profile row was
      stored, and to no profile before that. */
  predicate ErrorsLinked(es: seq<Event>, id: string) {
    forall i :: 0 <= i < |es| && IsErrorWrite(es[i]) ==>
      es[i].stmt.scanProfileId == if InsertedBefore(es, i) then id else ""
  }

  lemma LinkedWithoutInsert(es: seq<Event>, id: string)
    requires NoInsert(es) && AllLinks(es, "")
    ensures ErrorsLinked(es, id)
  {
    forall i | 0 <= i < |es| && IsErrorWrite(es[i]) ensures !InsertedBefore(es, i) {
    }
  }

  lemma LinkedAfter(pre: seq<Event>, es: seq<Event>, id: string)
    requires NoInsert(pre) && AllLinks(pre, "") && ErrorsLinked(es, id)
    ensures ErrorsLinked(pre + es, id)
  {
    var all := pre + es;
    forall i | 0 <= i < |all| && IsErrorWrite(all[i])
      ensures all[i].stmt.scanProfileId == if InsertedBefore(all, i) then id else ""
    {
      if i < |pre| {
        assert all[i] == pre[i];
        assert !InsertedBefore(all, i) by {
          forall k | 0 <= k < i ensures !(IsProfileInsert(all[k]) && all[k].ok) {
            assert all[k] == pre[k];
          }
        }
      } else {
        var j := i - |pre|;
        assert all[i] == es[j];
        assert InsertedBefore(all, i) <==> InsertedBefore(es, j) by {
          forall k | 0 <= k < |pre| ensures !(IsProfileInsert(all[k]) && all[k].ok) {
            assert all[k] == pre[k];
          }
          forall k | 0 <= k < j ensures all[k + |pre|] == es[k] {
          }
        }
      }
    }
  }

  lemma ProfileLinked(cfg: Config, target: Target, host: string, domainToken: string, w: World)
    ensures ErrorsLinked(ProfileSteps(cfg, target, host, domainToken, w), w.profileId)
  {
    var es := ProfileSteps(cfg, target, host, domainToken, w);
    match w.profile
    case NoResponse =>
    case HttpError(data) =>
      ServiceErrorLinks(cfg, target, Explain(CreateFailed, data), "", w);
      LinkedWithoutInsert(es, w.profileId);
    case Ok(sp) =>
      if w.profileRow {
        var rest := StartSteps(cfg, target, sp, w);
        StartShape(cfg, target, sp, w);
        assert IsProfileInsert(es[1]) && es[1].ok;
        forall i | 0 <= i < |es| && IsErrorWrite(es[i])
          ensures InsertedBefore(es, i) && es[i].stmt.scanProfileId == w.profileId
        {
          assert es[i] == rest[i - 2];
        }
      }
  }

  lemma SelectLinked(cfg: Config, target: Target, app: App, domains: seq<Domain>, w: World)
    ensures ErrorsLinked(SelectSteps(cfg, target, app, domains, w), w.profileId)
  {
    var es := SelectSteps(cfg, target, app, domains, w);
    if app.hostname.None? {
      assert es == [];
      return;
    }
    var host := app.hostname.value;
    var r := MatchDomain(host, domains);
    if r.None? {
      var err := ServiceErrorSteps(cfg, target, NoDomainMessage(target.app, app.webUrl), "", w);
      ServiceErrorLinks(cfg, target, NoDomainMessage(target.app, app.webUrl), "", w);
      LinkedWithoutInsert(err, w.profileId);
      assert es == err;
    } else {
      var ps := ProfileSteps(cfg, target, host, domains[r.value].token, w);
      ProfileLinked(cfg, target, host, domains[r.value].token, w);
      assert es == ps;
    }
  }

  lemma DomainLinked(cfg: Config, target: Target, app: App, w: World)
    ensures ErrorsLinked(DomainSteps(cfg, target, app, w), w.profileId)
  {
    var first := [Provider(GetDomains, w.domains.Ok?)];
    match w.domains
    case NoResponse =>
    case HttpError(data) =>
      ServiceErrorLinks(cfg, target, Explain(DomainsFailed, data), "", w);
      LinkedWithoutInsert(ServiceErrorSteps(cfg, target, Explain(DomainsFailed, data), "", w), w.profileId);
      LinkedAfter(first, ServiceErrorSteps(cfg, target, Explain(DomainsFailed, data), "", w), w.profileId);
    case Ok(domains) =>
      SelectLinked(cfg, target, app, domains, w);
      LinkedAfter(first, SelectSteps(cfg, target, app, domains, w), w.profileId);
  }

  /** Errors reported before the profile row exists carry no profile link;
      errors from starting the scan or fetching its state carry the new
      profile's id. */
  lemma ReleaseLinked(cfg: Config, a: Accepted, app: App, w: World)
    ensures ErrorsLinked(ReleaseSteps(cfg, a, app, w), w.profileId)
  {
    var e1 := Platform(PendingRequest(cfg, a), w.statusId.Some?);
    if w.statusId.None? {
      LinkedWithoutInsert([e1] + [], w.profileId);
      return;
    }
    var e2 := Write(Db.StoreRelease(a.releaseId, a.app, w.statusId.value, a.token, w.now), w.releaseRow);
    if !w.releaseRow {
      LinkedWithoutInsert([e1] + ([e2] + []), w.profileId);
      return;
    }
    var rest := DomainSteps(cfg, Target(a.token, a.app, a.releaseId, w.statusId.value), app, w);
    DomainLinked(cfg, Target(a.token, a.app, a.releaseId, w.statusId.value), app, w);
    LinkedAfter([e2], rest, w.profileId);
    LinkedAfter([e1], [e2] + rest, w.profileId);
  }

  /** Errors reported before the profile row exists carry no profile link;
      errors from starting the scan or fetching its state carry the new
      profile's id. */
  lemma ProvisionLinked(cfg: Config, a: Accepted, w: World)
    ensures ErrorsLinked(ProvisionSteps(cfg, a, w), w.profileId)
  {
    var e0 := Platform(Akkeris.GetAppDetails(cfg.akkerisApi, a.token, a.app), w.app.Some?);
    if w.app.None? {
      LinkedWithoutInsert([e0] + [], w.profileId);
      return;
    }
    ReleaseLinked(cfg, a, w.app.value, w);
    LinkedAfter([e0], ReleaseSteps(cfg, a, w.app.value, w), w.profileId);
  }

  /** A stored error report adds exactly its error row, linked as given,
      and leaves the other tables as they were. */
  lemma ServiceErrorStored(t: Db.Tables, cfg: Config, target: Target, description: string, link: string, w: World)
    requires w.errorRow
    ensures Replay(t, ServiceErrorSteps(cfg, target, description, link, w))
            == t.(errors := t.errors + [Db.NewError(w.errorId, description, target.releaseId, link, w.now)])
  {
    var e0 := Write(Db.StoreError(w.errorId, description, target.releaseId, link, w.now), true);
    var e1 := Platform(ErrorStatusRequest(cfg, target, w.errorId, ServiceErrorType), w.errorPosted);
    ReplayCons(t, e0, [e1]);
    ReplayCons(Step(t, e0), e1, []);
    assert [e1] == [e1] + [];
  }

  // ---------------------------------------------------------------------
  // A hook whose every step succeeds.

  /** Every call up to the first scan state answered: app details, pending
      status, release row, a domain list with a match, the profile and its
      row, and the scan start. */
  predicate ScanStarted(w: World) {
    && w.app.Some? && w.app.value.hostname.Some?
    && w.statusId.Some? && w.releaseRow
    && w.domains.Ok? && MatchDomain(w.app.value.hostname.value, w.domains.value).Some?
    && w.profile.Ok? && w.profileRow
    && w.started.Ok? && w.scanStatus.Ok?
  }

  /** The profile row as the successful hook leaves it: inserted at
      `profile_created`, then moved to the scan's first state when that
      write was accepted. */
  function ProvisionedProfile(a: Accepted, w: World): Db.ProfileRow
    requires ScanStarted(w)
  {
    var sp := w.profile.value;
    Db.NewProfile(w.profileId, a.releaseId, sp.name, sp.endpoint,
                  if w.statusRow then w.scanStatus.value else ProfileCreated, sp.token, w.now)
  }

  function ProvisionedRelease(a: Accepted, w: World): Db.ReleaseRow
    requires w.statusId.Some?
  {
    Db.NewRelease(a.releaseId, a.app, w.statusId.value, a.token, w.now)
  }

  /** The store after the successful hook: one more release row, one more
      profile row at `profile_created`, moved to the scan's first state when
      that write was accepted (a status write reaches every row with the
      same id), and no error row. */
  function ProvisionedState(t: Db.Tables, a: Accepted, w: World): Db.Tables
    requires ScanStarted(w)
  {
    var sp := w.profile.value;
    var inserted := t.profiles + [Db.NewProfile(w.profileId, a.releaseId, sp.name, sp.endpoint,
                                                ProfileCreated, sp.token, w.now)];
    Db.Tables(if w.statusRow then Db.SetStatus(inserted, w.profileId, w.scanStatus.value, w.now) else inserted,
              t.releases + [ProvisionedRelease(a, w)],
              t.errors)
  }

  /** A started scan whose state was fetched changes the store only by the
      status write, when that write is accepted. */
  lemma StartedTables(t: Db.Tables, cfg: Config, target: Target, sp: ScanProfile, w: World)
    requires w.started.Ok? && w.scanStatus.Ok?
    ensures Replay(t, StartSteps(cfg, target, sp, w))
            == if w.statusRow then t.(profiles := Db.SetStatus(t.profiles, w.profileId, w.scanStatus.value, w.now)) else t
  {
    var e6 := Provider(StartScan(sp.token), true);
    var e7 := Provider(GetScanStatus(sp.token), true);
    var e8 := Platform(ScanStateRequest(cfg, target, w.scanStatus.value), w.posted);
    var e9 := Write(Db.UpdateScanProfileStatus(w.profileId, w.scanStatus.value, w.now), w.statusRow);
    ReplayCons(t, e6, StatusSteps(cfg, target, sp, w));
    ReplayCons(t, e7, [e8, e9]);
    ReplayCons(t, e8, [e9]);
    ReplayCons(Step(t, e9), e9, []);
    assert [e8, e9] == [e8] + [e9];
    assert [e9] == [e9] + [];
  }

  lemma ProvisionedTables(t: Db.Tables, cfg: Config, a: Accepted, w: World)
    requires ScanStarted(w)
    ensures Replay(t, ProvisionSteps(cfg, a, w)) == ProvisionedState(t, a, w)
  {
    var host := w.app.value.hostname.value;
    var ds := w.domains.value;
    var sp := w.profile.value;
    var target := Target(a.token, a.app, a.releaseId, w.statusId.value);
    var e0 := Platform(Akkeris.GetAppDetails(cfg.akkerisApi, a.token, a.app), true);
    var e1 := Platform(PendingRequest(cfg, a), true);
    var e2 := Write(Db.StoreRelease(a.releaseId, a.app, w.statusId.value, a.token, w.now), true);
    var e3 := Provider(GetDomains, true);
    var e4 := Provider(CreateScanProfile(ds[MatchDomain(host, ds).value].token, ProfileName(host), host), true);
    var e5 := Write(Db.StoreScanProfile(w.profileId, a.releaseId, sp.name, sp.endpoint, ProfileCreated, sp.token, w.now), true);
    var started := StartSteps(cfg, target, sp, w);
    var profile := ProfileSteps(cfg, target, host, ds[MatchDomain(host, ds).value].token, w);
    var domain := DomainSteps(cfg, target, w.app.value, w);
    var t2 := Step(t, e2);
    ReplayCons(t, e0, ReleaseSteps(cfg, a, w.app.value, w));
    ReplayCons(t, e1, [e2] + domain);
    ReplayCons(t, e2, domain);
    ReplayCons(t2, e3, profile);
    ReplayCons(t2, e4, [e5] + started);
    ReplayCons(t2, e5, started);
    StartedTables(Step(t2, e5), cfg, target, sp, w);
  }

  /** After the successful hook its profile is among the pending profiles
      exactly when its first state is one the reconciler works on, or when
      that state was never stored (the row then stays at
      `profile_created`); otherwise no pending row has its id. */
  lemma ProvisionedPending(t: Db.Tables, a: Accepted, w: World)
    requires ScanStarted(w)
    ensures var pending := Db.GetPendingProfiles(ProvisionedState(t, a, w));
            Db.Joined(ProvisionedProfile(a, w), ProvisionedRelease(a, w)) in pending
            <==> !w.statusRow || w.scanStatus.value in Db.WorkingStatuses
    ensures var pending := Db.GetPendingProfiles(ProvisionedState(t, a, w));
            w.statusRow && w.scanStatus.value !in Db.WorkingStatuses ==>
            forall j :: j in pending ==> j.profile.id != w.profileId
  {
    var sp := w.profile.value;
    var row := Db.NewProfile(w.profileId, a.releaseId, sp.name, sp.endpoint, ProfileCreated, sp.token, w.now);
    var inserted := t.profiles + [row];
    var after := ProvisionedState(t, a, w);
    var j := Db.Joined(ProvisionedProfile(a, w), ProvisionedRelease(a, w));
    assert j.release in after.releases by {
      assert after.releases[|t.releases|] == ProvisionedRelease(a, w);
    }
    if w.statusRow {
      var last := |inserted| - 1;
      assert inserted[last] == row;
      assert after.profiles[last] == row.(status := w.scanStatus.value, updatedAt := w.now);
      assert j.profile in after.profiles;
    } else {
      assert after.profiles[|t.profiles|] == row;
      assert ProfileCreated in Db.WorkingStatuses;
    }
  }
}
