/** The reconciler: every pass lists the pending scan profiles and, for each,
    times it out, cleans it up, or polls the scan provider and acts on the
    state it reports.

    The answers of the outside world to one profile's pass are an oracle
    `World`, with one field per call site (the clock, the provider's
    replies, whether the platform, object storage and each statement
    accepted the request). The methods mirror the handler step by step and
    promise that the events they cause are exactly `ProcessSteps` of the
    profile and its world; the lemmas below state what those events are. */
module TaskHandler {
  import opened Util
  import Akkeris
  import Db
  import opened Effects

  const DefaultTimeoutMinutes := 50
  const ErrorStatuses := ["unable_to_resolve", "unable_to_complete"]
  const PollFailedMessage := "Unable to get scan profile status from the Detectify API"
  const ReportFailedMessage := "Unable to get full scan report from Detectify"
  const ApiErrorType := "Detectify API Error"
  const ScanErrorType := "Scan Error"
  const TimeoutType := "Timeout"
  const PassedDescription := "Detectify scan passed!"
  const FailedDescription := "Detectify scan failed"

  /** TIMEOUT_MINUTES as read at start-up: the integer `parseInt` finds, or
      50 when it finds none. */
  function TimeoutMinutes(setting: Option<string>): (minutes: int)
    ensures setting.None? ==> minutes == DefaultTimeoutMinutes
    ensures setting.Some? && ParseInt(setting.value).None? ==> minutes == DefaultTimeoutMinutes
    ensures setting.Some? && ParseInt(setting.value).Some? ==> minutes == ParseInt(setting.value).value
  {
    if setting.None? then DefaultTimeoutMinutes
    else match ParseInt(setting.value)
      case None => DefaultTimeoutMinutes
      case Some(n) => n
  }

  /** Integers JavaScript holds exactly: below 2^53 in magnitude. */
  const SafeIntegerBound := 0x20_0000_0000_0000

  /** A setting written as an integer is read back as that integer, for the
      integers a double holds exactly. */
  lemma TimeoutSettingRoundTrip(n: int)
    requires -SafeIntegerBound < n < SafeIntegerBound
    ensures TimeoutMinutes(Some(IntToString(n))) == n
  {
    ParseIntOfIntToString(n);
  }

  /** The reconciler's settings: platform API, callback URL and timeout. */
  function Configure(api: string, callbackSetting: Option<string>, timeoutSetting: Option<string>): (cfg: Config)
    ensures cfg.akkerisApi == api
    ensures cfg.callbackUrl == Akkeris.CallbackUrl(callbackSetting)
    ensures timeoutSetting.None? ==> cfg.timeoutMinutes == DefaultTimeoutMinutes
  {
    Config(api, Akkeris.CallbackUrl(callbackSetting), TimeoutMinutes(timeoutSetting))
  }

  function TimeoutMessage(minutes: int): string {
    "The Detectify scan took longer than " + IntToString(minutes) + " minutes to complete."
  }

  /** A profile has timed out when strictly more than the configured minutes
      (in milliseconds) have passed since its row was created. */
  predicate TimedOut(cfg: Config, p: Db.Joined, now: int)
    ensures TimedOut(cfg, p, now) && cfg.timeoutMinutes >= 0 ==> now > p.profile.createdAt
  {
    now - p.profile.createdAt > cfg.timeoutMinutes * 60 * 1000
  }

  /** Once a profile has timed out it stays timed out as the clock advances. */
  lemma TimedOutStays(cfg: Config, p: Db.Joined, now: int, later: int)
    requires now <= later && TimedOut(cfg, p, now)
    ensures TimedOut(cfg, p, later)
  {
  }

  predicate IsErrorStatus(state: string) {
    state in ErrorStatuses
  }

  /** Stored statuses for which the platform already has its answer. */
  predicate AlreadyFinished(status: string) {
    status == "success" || status == "fail" || status == "error"
  }

  /** The `cvss` member of a report as the parsed JSON holds it: absent
      (`undefined`), `null`, a boolean or a number. */
  datatype Score = Missing | Null | Bool(b: bool) | Number(value: real)

  /** The number JavaScript's `<` compares a score as; `None` is NaN. */
  function ScoreNumber(cvss: Score): Option<real> {
    match cvss
    case Missing => None
    case Null => Some(0.0)
    case Bool(b) => Some(if b then 1.0 else 0.0)
    case Number(x) => Some(x)
  }

  /** The verdict of a finished scan: `cvss < 6` with JavaScript's
      conversions, so `null` and booleans pass, an absent score fails. */
  function Verdict(cvss: Score): (v: string)
    ensures v == "success" <==> cvss.Null? || cvss.Bool? || (cvss.Number? && cvss.value < 6.0)
    ensures v == "fail" <==> cvss.Missing? || (cvss.Number? && cvss.value >= 6.0)
  {
    var n := ScoreNumber(cvss);
    if n.Some? && n.value < 6.0 then "success" else "fail"
  }

  function VerdictDescription(cvss: Score): string {
    if Verdict(cvss) == "success" then PassedDescription else FailedDescription
  }

  /** The object-storage key of an archived report. */
  function ArchiveKey(token: string, clock: int): (key: string)
    ensures |key| == |token| + |IntToString(clock)| + 6
    ensures StartsWith(key, token + "_") && EndsWith(key, ".json")
    ensures key[|token| + 1..|key| - 5] == IntToString(clock)
  {
    var key := token + "_" + IntToString(clock) + ".json";
    assert key[..|token| + 1] == token + "_";
    assert key[|key| - 5..] == ".json";
    key
  }

  /** Reports archived at different instants get different keys. */
  lemma ArchiveKeysDistinct(token: string, c1: int, c2: int)
    ensures ArchiveKey(token, c1) == ArchiveKey(token, c2) <==> c1 == c2
  {
    if ArchiveKey(token, c1) == ArchiveKey(token, c2) {
      ParseIntOfIntToString(c1);
      ParseIntOfIntToString(c2);
    }
  }

  function ReportLink(cfg: Config, p: Db.Joined): string {
    cfg.callbackUrl + "/reports/" + p.profile.id
  }

  /** The release status a pending profile answers to. */
  function TargetOf(p: Db.Joined): Target {
    Target(p.release.token, p.release.appName, p.release.release, p.release.statusId)
  }

  function VerdictRequest(cfg: Config, p: Db.Joined, cvss: Score): Akkeris.Request {
    Akkeris.UpdateReleaseStatus(cfg.akkerisApi, cfg.callbackUrl, p.release.token, p.release.appName,
                                p.release.release, p.release.statusId, Verdict(cvss),
                                VerdictDescription(cvss), Some(ReportLink(cfg, p)))
  }

  /** The pending status that mirrors a scan's progress on the platform. */
  function ProgressRequest(cfg: Config, p: Db.Joined, state: string): Akkeris.Request {
    Akkeris.UpdateReleaseStatus(cfg.akkerisApi, cfg.callbackUrl, p.release.token, p.release.appName,
                                p.release.release, p.release.statusId, "pending",
                                "Detectify scan " + state, None)
  }

  /** Answers to one deletion: the provider's, then each statement's. */
  datatype Cleanup = Cleanup(provider: bool, profileRow: bool, releaseRow: bool)

  /** A finished scan's report: its score and its JSON text. */
  datatype Report = Report(cvss: Score, json: string)

  /** The outside world's answers to one profile's pass. `poll` and `report`
      are the provider's replies (`None`: the call failed); `posted` is the
      platform's answer to the one status update of the pass; `statusRow`
      the store's answer to the one status write; `cleanup` answers the
      first deletion, `retry` the second one on the timeout path. */
  datatype World = World(
    now: int,
    poll: Option<string>,
    report: Option<Report>,
    posted: bool,
    statusRow: bool,
    errorId: string,
    errorRow: bool,
    errorPosted: bool,
    archiveClock: int,
    uploaded: bool,
    keyRow: bool,
    cleanup: Cleanup,
    retry: Cleanup)

  /** Deletion: the provider first; the profile row only if the provider
      accepted, the release rows only if the profile row was marked. */
  function DeleteSteps(p: Db.Joined, c: Cleanup, at: int): seq<Event> {
    [Provider(DeleteScanProfile(p.profile.token), c.provider)]
    + if !c.provider then []
      else [Write(Db.DeleteScanProfile(p.profile.id, at), c.profileRow)]
           + if !c.profileRow then [] else [Write(Db.DeleteRelease(p.release.release, at), c.releaseRow)]
  }

  /** An error report linked to the profile's provider token, then a
      deletion whatever became of the report. */
  function ReportErrorSteps(cfg: Config, p: Db.Joined, description: string, errorType: string,
                            w: World, c: Cleanup): seq<Event> {
    ErrorReportSteps(cfg, TargetOf(p), w.errorId, description, errorType, p.profile.token,
                     w.now, w.errorRow, w.errorPosted)
    + DeleteSteps(p, c, w.now)
  }

  /** The events of one profile's pass. */
  function ProcessSteps(cfg: Config, p: Db.Joined, w: World): seq<Event> {
    if TimedOut(cfg, p, w.now) then
      ReportErrorSteps(cfg, p, TimeoutMessage(cfg.timeoutMinutes), TimeoutType, w, w.cleanup)
      + [Write(Db.UpdateScanProfileStatus(p.profile.id, "timeout", w.now), w.statusRow)]
      + DeleteSteps(p, w.retry, w.now)
    else if AlreadyFinished(p.profile.status) then
      DeleteSteps(p, w.cleanup, w.now)
    else
      [Provider(GetScanStatus(p.profile.token), w.poll.Some?)] + PolledSteps(cfg, p, w)
  }

  function PolledSteps(cfg: Config, p: Db.Joined, w: World): seq<Event> {
    match w.poll
    case None => ReportErrorSteps(cfg, p, PollFailedMessage, ApiErrorType, w, w.cleanup)
    case Some(state) =>
      if IsErrorStatus(state) then
        ReportErrorSteps(cfg, p, "Scan returned with an error: " + state, ScanErrorType, w, w.cleanup)
      else if state == "stopped" then
        [Provider(GetFullScanReport(p.profile.token), w.report.Some?)] + CompletedSteps(cfg, p, w)
      else if state != p.profile.status then
        [Write(Db.UpdateScanProfileStatus(p.profile.id, state, w.now), w.statusRow),
         Platform(ProgressRequest(cfg, p, state), w.posted)]
      else []
  }

  function CompletedSteps(cfg: Config, p: Db.Joined, w: World): seq<Event> {
    match w.report
    case None => ReportErrorSteps(cfg, p, ReportFailedMessage, ApiErrorType, w, w.cleanup)
    case Some(report) => VerdictSteps(cfg, p, report, w) + ArchiveSteps(p, report, w)
  }

  /** The verdict goes to the platform; the stored status follows only if
      the platform accepted it. */
  function VerdictSteps(cfg: Config, p: Db.Joined, report: Report, w: World): seq<Event> {
    [Platform(VerdictRequest(cfg, p, report.cvss), w.posted)]
    + if w.posted then [Write(Db.UpdateScanProfileStatus(p.profile.id, Verdict(report.cvss), w.now), w.statusRow)]
      else []
  }

  /** The report is archived, its key stored, and only then the profile
      deleted. */
  function ArchiveSteps(p: Db.Joined, report: Report, w: World): seq<Event> {
    var key := ArchiveKey(p.profile.token, w.archiveClock);
    [Upload(key, report.json, p.profile.token, w.uploaded)]
    + if !w.uploaded then [] else KeySteps(p, key, w)
  }

  function KeySteps(p: Db.Joined, key: string, w: World): seq<Event> {
    [Write(Db.UpdateScanProfileReport(p.profile.id, key, w.now), w.keyRow)]
    + if !w.keyRow then [] else DeleteSteps(p, w.cleanup, w.now)
  }

  /** The events of a whole pass over `rows`, profile `i` answered by
      `worlds(i)`. */
  function SweepSteps(cfg: Config, rows: seq<Db.Joined>, worlds: nat -> World): seq<Event>
    decreases |rows|
  {
    if rows == [] then []
    else SweepSteps(cfg, rows[..|rows| - 1], worlds) + ProcessSteps(cfg, rows[|rows| - 1], worlds(|rows| - 1))
  }

  // ---------------------------------------------------------------------
  // The handler, step by step.

  method DeleteProfile(ctx: Context, p: Db.Joined, c: Cleanup, at: int)
    requires ctx.Valid()
    modifies ctx, ctx.db
    ensures ctx.Valid() && ctx.trace == old(ctx.trace) + DeleteSteps(p, c, at)
  {
    ctx.Record(Provider(DeleteScanProfile(p.profile.token), c.provider));
    if !c.provider {
      return;
    }
    ctx.Execute(Db.DeleteScanProfile(p.profile.id, at), c.profileRow);
    if !c.profileRow {
      return;
    }
    ctx.Execute(Db.DeleteRelease(p.release.release, at), c.releaseRow);
  }

  method ReportError(ctx: Context, cfg: Config, p: Db.Joined, description: string, errorType: string,
                     w: World, c: Cleanup)
    requires ctx.Valid()
    modifies ctx, ctx.db
    ensures ctx.Valid() && ctx.trace == old(ctx.trace) + ReportErrorSteps(cfg, p, description, errorType, w, c)
  {
    ghost var start := ctx.trace;
    ctx.Execute(Db.StoreError(w.errorId, description, p.release.release, p.profile.token, w.now), w.errorRow);
    if w.errorRow {
      ctx.Record(Platform(ErrorStatusRequest(cfg, TargetOf(p), w.errorId, errorType), w.errorPosted));
    }
    ghost var report := ErrorReportSteps(cfg, TargetOf(p), w.errorId, description, errorType, p.profile.token,
                                         w.now, w.errorRow, w.errorPosted);
    assert ctx.trace == start + report;
    DeleteProfile(ctx, p, c, w.now);
    AppendAssoc(start, report, DeleteSteps(p, c, w.now));
  }

  /** A status write whose failure is swallowed. */
  method UpdateProfileStatus(ctx: Context, p: Db.Joined, status: string, ok: bool, at: int)
    requires ctx.Valid()
    modifies ctx, ctx.db
    ensures ctx.Valid()
    ensures ctx.trace == old(ctx.trace) + [Write(Db.UpdateScanProfileStatus(p.profile.id, status, at), ok)]
  {
    ctx.Execute(Db.UpdateScanProfileStatus(p.profile.id, status, at), ok);
  }

  method ProcessScanProfile(ctx: Context, cfg: Config, p: Db.Joined, w: World)
    requires ctx.Valid()
    modifies ctx, ctx.db
    ensures ctx.Valid() && ctx.trace == old(ctx.trace) + ProcessSteps(cfg, p, w)
  {
    ghost var start := ctx.trace;
    if TimedOut(cfg, p, w.now) {
      ghost var report := ReportErrorSteps(cfg, p, TimeoutMessage(cfg.timeoutMinutes), TimeoutType, w, w.cleanup);
      ghost var mark := [Write(Db.UpdateScanProfileStatus(p.profile.id, "timeout", w.now), w.statusRow)];
      ghost var retry := DeleteSteps(p, w.retry, w.now);
      ReportError(ctx, cfg, p, TimeoutMessage(cfg.timeoutMinutes), TimeoutType, w, w.cleanup);
      UpdateProfileStatus(ctx, p, "timeout", w.statusRow, w.now);
      DeleteProfile(ctx, p, w.retry, w.now);
      AppendAssoc(start, report, mark);
      AppendAssoc(start, report + mark, retry);
      return;
    }
    if p.profile.status == "success" || p.profile.status == "fail" || p.profile.status == "error" {
      DeleteProfile(ctx, p, w.cleanup, w.now);
      return;
    }
    ghost var poll := [Provider(GetScanStatus(p.profile.token), w.poll.Some?)];
    ctx.Record(Provider(GetScanStatus(p.profile.token), w.poll.Some?));
    ActOnState(ctx, cfg, p, w);
    AppendAssoc(start, poll, PolledSteps(cfg, p, w));
  }

  /** What follows the status poll. */
  method ActOnState(ctx: Context, cfg: Config, p: Db.Joined, w: World)
    requires ctx.Valid()
    modifies ctx, ctx.db
    ensures ctx.Valid() && ctx.trace == old(ctx.trace) + PolledSteps(cfg, p, w)
  {
    if w.poll.None? {
      ReportError(ctx, cfg, p, PollFailedMessage, ApiErrorType, w, w.cleanup);
      return;
    }
    var state := w.poll.value;
    if state in ErrorStatuses {
      ReportError(ctx, cfg, p, "Scan returned with an error: " + state, ScanErrorType, w, w.cleanup);
      return;
    }
    if state == "stopped" {
      ghost var start := ctx.trace;
      ctx.Record(Provider(GetFullScanReport(p.profile.token), w.report.Some?));
      Complete(ctx, cfg, p, w);
      AppendAssoc(start, [Provider(GetFullScanReport(p.profile.token), w.report.Some?)], CompletedSteps(cfg, p, w));
      return;
    }
    if state != p.profile.status {
      ghost var start := ctx.trace;
      ghost var write := [Write(Db.UpdateScanProfileStatus(p.profile.id, state, w.now), w.statusRow)];
      ghost var echo := [Platform(ProgressRequest(cfg, p, state), w.posted)];
      UpdateProfileStatus(ctx, p, state, w.statusRow, w.now);
      ctx.Record(Platform(ProgressRequest(cfg, p, state), w.posted));
      AppendAssoc(start, write, echo);
      assert write + echo == PolledSteps(cfg, p, w);
    }
  }

  /** A stopped scan: fetch the report, post the verdict, archive, delete. */
  method Complete(ctx: Context, cfg: Config, p: Db.Joined, w: World)
    requires ctx.Valid()
    modifies ctx, ctx.db
    ensures ctx.Valid() && ctx.trace == old(ctx.trace) + CompletedSteps(cfg, p, w)
  {
    if w.report.None? {
      ReportError(ctx, cfg, p, ReportFailedMessage, ApiErrorType, w, w.cleanup);
      return;
    }
    ghost var start := ctx.trace;
    ghost var verdict := VerdictSteps(cfg, p, w.report.value, w);
    ghost var archive := ArchiveSteps(p, w.report.value, w);
    assert CompletedSteps(cfg, p, w) == verdict + archive;
    PostVerdict(ctx, cfg, p, w.report.value, w);
    Archive(ctx, p, w.report.value, w);
    AppendAssoc(start, verdict, archive);
  }

  /** The verdict goes to the platform; a rejected update skips the status
      write. */
  method PostVerdict(ctx: Context, cfg: Config, p: Db.Joined, report: Report, w: World)
    requires ctx.Valid()
    modifies ctx, ctx.db
    ensures ctx.Valid() && ctx.trace == old(ctx.trace) + VerdictSteps(cfg, p, report, w)
  {
    ctx.Record(Platform(VerdictRequest(cfg, p, report.cvss), w.posted));
    if w.posted {
      UpdateProfileStatus(ctx, p, Verdict(report.cvss), w.statusRow, w.now);
    }
  }

  /** Archive the report; any failure ends the pass before the deletion. */
  method Archive(ctx: Context, p: Db.Joined, report: Report, w: World)
    requires ctx.Valid()
    modifies ctx, ctx.db
    ensures ctx.Valid() && ctx.trace == old(ctx.trace) + ArchiveSteps(p, report, w)
  {
    var key := ArchiveKey(p.profile.token, w.archiveClock);
    ctx.Record(Upload(key, report.json, p.profile.token, w.uploaded));
    if !w.uploaded {
      return;
    }
    ghost var uploaded := ctx.trace;
    ctx.Execute(Db.UpdateScanProfileReport(p.profile.id, key, w.now), w.keyRow);
    if w.keyRow {
      DeleteProfile(ctx, p, w.cleanup, w.now);
    }
    assert ctx.trace == uploaded + KeySteps(p, key, w);
  }

  /** One pass. `listed` says whether the store answered the query for the
      pending profiles; when it did not, the pass ends with nothing done. */
  method Run(ctx: Context, cfg: Config, listed: bool, worlds: nat -> World)
    requires ctx.Valid()
    modifies ctx, ctx.db
    ensures ctx.Valid()
    ensures !listed ==> ctx.trace == old(ctx.trace)
    ensures listed ==> ctx.trace == old(ctx.trace) + SweepSteps(cfg, Db.GetPendingProfiles(old(ctx.db.Snapshot())), worlds)
  {
    if !listed {
      return;
    }
    var profiles := Db.GetPendingProfiles(ctx.db.Snapshot());
    if |profiles| == 0 {
      return;
    }
    ProcessAll(ctx, cfg, profiles, worlds);
  }

  /** Each listed profile in turn, the i-th answered by `worlds(i)`. */
  method ProcessAll(ctx: Context, cfg: Config, profiles: seq<Db.Joined>, worlds: nat -> World)
    requires ctx.Valid()
    modifies ctx, ctx.db
    ensures ctx.Valid() && ctx.trace == old(ctx.trace) + SweepSteps(cfg, profiles, worlds)
  {
    var i := 0;
    while i < |profiles|
      invariant 0 <= i <= |profiles|
      invariant ctx.Valid()
      invariant ctx.trace == old(ctx.trace) + SweepSteps(cfg, profiles[..i], worlds)
    {
      ghost var done := SweepSteps(cfg, profiles[..i], worlds);
      ghost var next := ProcessSteps(cfg, profiles[i], worlds(i));
      ProcessScanProfile(ctx, cfg, profiles[i], worlds(i));
      assert profiles[..i + 1][..i] == profiles[..i];
      assert SweepSteps(cfg, profiles[..i + 1], worlds) == done + next;
      AppendAssoc(old(ctx.trace), done, next);
      i := i + 1;
    }
    assert profiles[..i] == profiles;
  }

  // ---------------------------------------------------------------------
  // What a pass does.

  /** An event that touches only the profile's own rows, provider profile,
      release status or archived report. */
  predicate Concerns(cfg: Config, p: Db.Joined, e: Event) {
    match e
    case Provider(call, _) =>
      || call == GetScanStatus(p.profile.token)
      || call == GetFullScanReport(p.profile.token)
      || call == DeleteScanProfile(p.profile.token)
    case Platform(request, _) =>
      && request.authorization == Akkeris.Authorization(p.release.token)
      && request.url == Akkeris.StatusesUrl(cfg.akkerisApi, p.release.appName, p.release.release)
                        + "/" + p.release.statusId
    case Upload(key, _, token, _) => token == p.profile.token && StartsWith(key, p.profile.token + "_")
    case Write(stmt, _) =>
      match stmt
      case UpdateScanProfileStatus(id, _, _) => id == p.profile.id
      case UpdateScanProfileReport(id, _, _) => id == p.profile.id
      case DeleteScanProfile(id, _) => id == p.profile.id
      case DeleteRelease(releaseId, _) => releaseId == p.release.release
      case StoreError(_, _, releaseId, scanProfileId, _) =>
        releaseId == p.release.release && scanProfileId == p.profile.token
      case _ => false
  }

  predicate OnlyOwn(cfg: Config, p: Db.Joined, es: seq<Event>) {
    forall e :: e in es ==> Concerns(cfg, p, e)
  }

  predicate IsKeyWrite(e: Event) {
    e.Write? && e.stmt.UpdateScanProfileReport?
  }

  /** The events try to store an archived report's key. */
  predicate StoresReportKey(es: seq<Event>) {
    exists e :: e in es && IsKeyWrite(e)
  }

  lemma OnlyOwnConcat(cfg: Config, p: Db.Joined, a: seq<Event>, b: seq<Event>)
    requires OnlyOwn(cfg, p, a) && OnlyOwn(cfg, p, b)
    ensures OnlyOwn(cfg, p, a + b)
  {
    forall e | e in a + b
      ensures Concerns(cfg, p, e)
    {
      assert e in a || e in b;
    }
  }

  lemma StoresReportKeyConcat(a: seq<Event>, b: seq<Event>)
    ensures StoresReportKey(a + b) <==> StoresReportKey(a) || StoresReportKey(b)
  {
    if StoresReportKey(a + b) {
      var e: Event :| e in a + b && IsKeyWrite(e);
      assert e in a || e in b;
    }
    if StoresReportKey(a) || StoresReportKey(b) {
      var e: Event :| (e in a || e in b) && IsKeyWrite(e);
      assert e in a + b;
    }
  }

  // Deletion.

  /** The deletion protocol: the provider is always asked first, the profile
      row is marked only after it accepted, the release rows only after the
      profile row was marked. */
  lemma DeleteProtocol(p: Db.Joined, c: Cleanup, at: int)
    ensures DeletionOrdered(DeleteSteps(p, c, at))
    ensures DeleteSteps(p, c, at)[0] == Provider(DeleteScanProfile(p.profile.token), c.provider)
    ensures !c.provider ==> forall e :: e in DeleteSteps(p, c, at) ==> !e.Write?
    ensures !c.profileRow ==> forall e :: e in DeleteSteps(p, c, at) ==> !IsReleaseSoftDelete(e)
  {
    var es := DeleteSteps(p, c, at);
    if c.provider && c.profileRow {
      assert es == [es[0], es[1], es[2]];
    } else if c.provider {
      assert es == [es[0], es[1]];
    } else {
      assert es == [es[0]];
    }
  }

  lemma DeleteCounts(p: Db.Joined, c: Cleanup, at: int)
    ensures StatusWrites(DeleteSteps(p, c, at)) == [] && ErrorRecords(DeleteSteps(p, c, at)) == 0
  {
    var es := DeleteSteps(p, c, at);
    if c.provider && c.profileRow {
      assert es == [es[0], es[1], es[2]];
      assert StatusWrites(es) == StatusWrites(es[1..]) == StatusWrites(es[2..]) == [];
      assert ErrorRecords(es) == ErrorRecords(es[1..]) == ErrorRecords(es[2..]) == 0;
    } else if c.provider {
      assert es == [es[0], es[1]];
      assert StatusWrites(es) == StatusWrites(es[1..]) == [];
      assert ErrorRecords(es) == ErrorRecords(es[1..]) == 0;
    }
  }

  lemma DeleteFlags(p: Db.Joined, c: Cleanup, at: int)
    ensures AttemptsDeletion(DeleteSteps(p, c, at))
    ensures !Polls(DeleteSteps(p, c, at)) && !StoresReportKey(DeleteSteps(p, c, at))
    ensures forall e :: e in DeleteSteps(p, c, at) ==> e.Provider? || IsProfileSoftDelete(e) || IsReleaseSoftDelete(e)
  {
    var es := DeleteSteps(p, c, at);
    assert es[0] in es;
  }

  lemma DeleteOwn(cfg: Config, p: Db.Joined, c: Cleanup, at: int)
    ensures OnlyOwn(cfg, p, DeleteSteps(p, c, at))
  {
  }

  // Error reports.

  /** An error report stores one error row linked to the profile's provider
      token and reaches the platform only if that row was stored. */
  lemma ReportErrorShape(cfg: Config, p: Db.Joined, description: string, errorType: string, w: World, c: Cleanup)
    ensures var es := ReportErrorSteps(cfg, p, description, errorType, w, c);
      && es[0] == Write(Db.StoreError(w.errorId, description, p.release.release, p.profile.token, w.now), w.errorRow)
      && ((exists e :: e in es && e.Platform?) <==> w.errorRow)
      && (w.errorRow ==> es[1] == Platform(ErrorStatusRequest(cfg, TargetOf(p), w.errorId, errorType), w.errorPosted))
  {
    var report := ErrorReportSteps(cfg, TargetOf(p), w.errorId, description, errorType, p.profile.token,
                                   w.now, w.errorRow, w.errorPosted);
    var delete := DeleteSteps(p, c, w.now);
    assert forall e :: e in delete ==> !e.Platform?;
    if w.errorRow {
      assert report[1] in report + delete;
    } else {
      assert report == [report[0]];
    }
  }

  /** Whatever became of the error row and the platform, an error report
      stores one error, writes no status and ends in a deletion attempt. */
  lemma ReportErrorCounts(cfg: Config, p: Db.Joined, description: string, errorType: string, w: World, c: Cleanup)
    ensures StatusWrites(ReportErrorSteps(cfg, p, description, errorType, w, c)) == []
    ensures ErrorRecords(ReportErrorSteps(cfg, p, description, errorType, w, c)) == 1
  {
    var report := ErrorReportSteps(cfg, TargetOf(p), w.errorId, description, errorType, p.profile.token,
                                   w.now, w.errorRow, w.errorPosted);
    var delete := DeleteSteps(p, c, w.now);
    if w.errorRow {
      assert report == [report[0], report[1]];
      assert StatusWrites(report) == StatusWrites(report[1..]) == [];
      assert ErrorRecords(report) == 1 + ErrorRecords(report[1..]) == 1;
    } else {
      assert report == [report[0]];
    }
    DeleteCounts(p, c, w.now);
    ObserversConcat(report, delete);
  }

  lemma ReportErrorFlags(cfg: Config, p: Db.Joined, description: string, errorType: string, w: World, c: Cleanup)
    ensures AttemptsDeletion(ReportErrorSteps(cfg, p, description, errorType, w, c))
    ensures !Polls(ReportErrorSteps(cfg, p, description, errorType, w, c))
    ensures !StoresReportKey(ReportErrorSteps(cfg, p, description, errorType, w, c))
  {
    var report := ErrorReportSteps(cfg, TargetOf(p), w.errorId, description, errorType, p.profile.token,
                                   w.now, w.errorRow, w.errorPosted);
    var delete := DeleteSteps(p, c, w.now);
    assert !AttemptsDeletion(report) && !Polls(report) && !StoresReportKey(report);
    DeleteFlags(p, c, w.now);
    FlagsConcat(report, delete);
    StoresReportKeyConcat(report, delete);
  }

  lemma ReportErrorOrdered(cfg: Config, p: Db.Joined, description: string, errorType: string, w: World, c: Cleanup)
    ensures DeletionOrdered(ReportErrorSteps(cfg, p, description, errorType, w, c))
  {
    var report := ErrorReportSteps(cfg, TargetOf(p), w.errorId, description, errorType, p.profile.token,
                                   w.now, w.errorRow, w.errorPosted);
    DeleteProtocol(p, c, w.now);
    DeletionOrderedConcat(report, DeleteSteps(p, c, w.now));
  }

  lemma ReportErrorOwn(cfg: Config, p: Db.Joined, description: string, errorType: string, w: World, c: Cleanup)
    ensures OnlyOwn(cfg, p, ReportErrorSteps(cfg, p, description, errorType, w, c))
  {
    var report := ErrorReportSteps(cfg, TargetOf(p), w.errorId, description, errorType, p.profile.token,
                                   w.now, w.errorRow, w.errorPosted);
    DeleteOwn(cfg, p, c, w.now);
    OnlyOwnConcat(cfg, p, report, DeleteSteps(p, c, w.now));
  }

  // Verdict.

  /** The verdict is the only status a finished scan writes, and only once
      the platform took it. */
  lemma VerdictCounts(cfg: Config, p: Db.Joined, report: Report, w: World)
    ensures StatusWrites(VerdictSteps(cfg, p, report, w)) == (if w.posted then [Verdict(report.cvss)] else [])
    ensures ErrorRecords(VerdictSteps(cfg, p, report, w)) == 0
  {
    var es := VerdictSteps(cfg, p, report, w);
    if w.posted {
      assert es == [es[0], es[1]];
      assert StatusWrites(es) == StatusWrites(es[1..]);
      assert StatusWrites(es[1..]) == [Verdict(report.cvss)] + StatusWrites(es[2..]);
      assert ErrorRecords(es) == ErrorRecords(es[1..]) == 0;
    } else {
      assert es == [es[0]];
    }
  }

  lemma VerdictFlags(cfg: Config, p: Db.Joined, report: Report, w: World)
    ensures !AttemptsDeletion(VerdictSteps(cfg, p, report, w))
    ensures !Polls(VerdictSteps(cfg, p, report, w)) && !StoresReportKey(VerdictSteps(cfg, p, report, w))
  {
  }

  lemma VerdictOwn(cfg: Config, p: Db.Joined, report: Report, w: World)
    ensures OnlyOwn(cfg, p, VerdictSteps(cfg, p, report, w))
    ensures DeletionOrdered(VerdictSteps(cfg, p, report, w))
  {
    var es := VerdictSteps(cfg, p, report, w);
    var post := Platform(VerdictRequest(cfg, p, report.cvss), w.posted);
    assert Concerns(cfg, p, post);
    if w.posted {
      var row := Write(Db.UpdateScanProfileStatus(p.profile.id, Verdict(report.cvss), w.now), w.statusRow);
      assert es == [post, row];
    } else {
      assert es == [post];
    }
  }

  // Archive.

  lemma KeyCounts(p: Db.Joined, key: string, w: World)
    ensures StatusWrites(KeySteps(p, key, w)) == [] && ErrorRecords(KeySteps(p, key, w)) == 0
  {
    var store := [Write(Db.UpdateScanProfileReport(p.profile.id, key, w.now), w.keyRow)];
    SingleEvent(store[0]);
    if w.keyRow {
      DeleteCounts(p, w.cleanup, w.now);
      ObserversConcat(store, DeleteSteps(p, w.cleanup, w.now));
    }
  }

  lemma KeyFlags(p: Db.Joined, key: string, w: World)
    ensures AttemptsDeletion(KeySteps(p, key, w)) <==> w.keyRow
    ensures !Polls(KeySteps(p, key, w)) && StoresReportKey(KeySteps(p, key, w))
  {
    var store := [Write(Db.UpdateScanProfileReport(p.profile.id, key, w.now), w.keyRow)];
    assert store[0] in KeySteps(p, key, w);
    if w.keyRow {
      var delete := DeleteSteps(p, w.cleanup, w.now);
      DeleteFlags(p, w.cleanup, w.now);
      FlagsConcat(store, delete);
    }
  }

  lemma KeyOrdered(cfg: Config, p: Db.Joined, key: string, w: World)
    ensures DeletionOrdered(KeySteps(p, key, w))
    ensures StartsWith(key, p.profile.token + "_") ==> OnlyOwn(cfg, p, KeySteps(p, key, w))
  {
    var store := [Write(Db.UpdateScanProfileReport(p.profile.id, key, w.now), w.keyRow)];
    if w.keyRow {
      var delete := DeleteSteps(p, w.cleanup, w.now);
      DeleteProtocol(p, w.cleanup, w.now);
      DeleteOwn(cfg, p, w.cleanup, w.now);
      DeletionOrderedConcat(store, delete);
      OnlyOwnConcat(cfg, p, store, delete);
    }
  }

  lemma ArchiveCounts(p: Db.Joined, report: Report, w: World)
    ensures StatusWrites(ArchiveSteps(p, report, w)) == [] && ErrorRecords(ArchiveSteps(p, report, w)) == 0
  {
    var key := ArchiveKey(p.profile.token, w.archiveClock);
    var upload := [Upload(key, report.json, p.profile.token, w.uploaded)];
    SingleEvent(upload[0]);
    if w.uploaded {
      KeyCounts(p, key, w);
      ObserversConcat(upload, KeySteps(p, key, w));
    }
  }

  /** The profile is deleted exactly when the report was archived and its
      key stored; the key is stored exactly when the report was archived. */
  lemma ArchiveFlags(p: Db.Joined, report: Report, w: World)
    ensures AttemptsDeletion(ArchiveSteps(p, report, w)) <==> w.uploaded && w.keyRow
    ensures StoresReportKey(ArchiveSteps(p, report, w)) <==> w.uploaded
    ensures !Polls(ArchiveSteps(p, report, w))
  {
    var key := ArchiveKey(p.profile.token, w.archiveClock);
    var upload := [Upload(key, report.json, p.profile.token, w.uploaded)];
    assert !AttemptsDeletion(upload) && !Polls(upload) && !StoresReportKey(upload);
    if w.uploaded {
      KeyFlags(p, key, w);
      FlagsConcat(upload, KeySteps(p, key, w));
      StoresReportKeyConcat(upload, KeySteps(p, key, w));
    }
  }

  lemma ArchiveOrdered(cfg: Config, p: Db.Joined, report: Report, w: World)
    ensures DeletionOrdered(ArchiveSteps(p, report, w)) && OnlyOwn(cfg, p, ArchiveSteps(p, report, w))
  {
    var key := ArchiveKey(p.profile.token, w.archiveClock);
    var upload := [Upload(key, report.json, p.profile.token, w.uploaded)];
    assert Concerns(cfg, p, upload[0]);
    if w.uploaded {
      KeyOrdered(cfg, p, key, w);
      DeletionOrderedConcat(upload, KeySteps(p, key, w));
      OnlyOwnConcat(cfg, p, upload, KeySteps(p, key, w));
    }
  }

  // Whole passes.

  /** Whatever the world answers, a pass keeps the deletion protocol. */
  lemma ProcessOrdered(cfg: Config, p: Db.Joined, w: World)
    ensures DeletionOrdered(ProcessSteps(cfg, p, w))
  {
    if TimedOut(cfg, p, w.now) {
      var report := ReportErrorSteps(cfg, p, TimeoutMessage(cfg.timeoutMinutes), TimeoutType, w, w.cleanup);
      var mark := [Write(Db.UpdateScanProfileStatus(p.profile.id, "timeout", w.now), w.statusRow)];
      var retry := DeleteSteps(p, w.retry, w.now);
      ReportErrorOrdered(cfg, p, TimeoutMessage(cfg.timeoutMinutes), TimeoutType, w, w.cleanup);
      DeleteProtocol(p, w.retry, w.now);
      DeletionOrderedConcat(report, mark);
      DeletionOrderedConcat(report + mark, retry);
    } else if AlreadyFinished(p.profile.status) {
      DeleteProtocol(p, w.cleanup, w.now);
    } else {
      PolledOrdered(cfg, p, w);
      DeletionOrderedConcat([Provider(GetScanStatus(p.profile.token), w.poll.Some?)], PolledSteps(cfg, p, w));
    }
  }

  lemma PolledOrdered(cfg: Config, p: Db.Joined, w: World)
    ensures DeletionOrdered(PolledSteps(cfg, p, w))
  {
    match w.poll
    case None =>
      ReportErrorOrdered(cfg, p, PollFailedMessage, ApiErrorType, w, w.cleanup);
    case Some(state) =>
      if IsErrorStatus(state) {
        ReportErrorOrdered(cfg, p, "Scan returned with an error: " + state, ScanErrorType, w, w.cleanup);
      } else if state == "stopped" {
        CompletedOrdered(cfg, p, w);
        DeletionOrderedConcat([Provider(GetFullScanReport(p.profile.token), w.report.Some?)], CompletedSteps(cfg, p, w));
      }
  }

  lemma CompletedOrdered(cfg: Config, p: Db.Joined, w: World)
    ensures DeletionOrdered(CompletedSteps(cfg, p, w))
  {
    match w.report
    case None =>
      ReportErrorOrdered(cfg, p, ReportFailedMessage, ApiErrorType, w, w.cleanup);
    case Some(report) =>
      VerdictOwn(cfg, p, report, w);
      ArchiveOrdered(cfg, p, report, w);
      DeletionOrderedConcat(VerdictSteps(cfg, p, report, w), ArchiveSteps(p, report, w));
  }

  /** Whatever the world answers, a pass touches only its own profile's
      rows, provider profile, release status and archive. */
  lemma ProcessOwn(cfg: Config, p: Db.Joined, w: World)
    ensures OnlyOwn(cfg, p, ProcessSteps(cfg, p, w))
  {
    if TimedOut(cfg, p, w.now) {
      var report := ReportErrorSteps(cfg, p, TimeoutMessage(cfg.timeoutMinutes), TimeoutType, w, w.cleanup);
      var mark := [Write(Db.UpdateScanProfileStatus(p.profile.id, "timeout", w.now), w.statusRow)];
      var retry := DeleteSteps(p, w.retry, w.now);
      ReportErrorOwn(cfg, p, TimeoutMessage(cfg.timeoutMinutes), TimeoutType, w, w.cleanup);
      DeleteOwn(cfg, p, w.retry, w.now);
      OnlyOwnConcat(cfg, p, report, mark);
      OnlyOwnConcat(cfg, p, report + mark, retry);
    } else if AlreadyFinished(p.profile.status) {
      DeleteOwn(cfg, p, w.cleanup, w.now);
    } else {
      PolledOwn(cfg, p, w);
      OnlyOwnConcat(cfg, p, [Provider(GetScanStatus(p.profile.token), w.poll.Some?)], PolledSteps(cfg, p, w));
    }
  }

  lemma PolledOwn(cfg: Config, p: Db.Joined, w: World)
    ensures OnlyOwn(cfg, p, PolledSteps(cfg, p, w))
  {
    match w.poll
    case None =>
      ReportErrorOwn(cfg, p, PollFailedMessage, ApiErrorType, w, w.cleanup);
    case Some(state) =>
      if IsErrorStatus(state) {
        ReportErrorOwn(cfg, p, "Scan returned with an error: " + state, ScanErrorType, w, w.cleanup);
      } else if state == "stopped" {
        CompletedOwn(cfg, p, w);
        OnlyOwnConcat(cfg, p, [Provider(GetFullScanReport(p.profile.token), w.report.Some?)], CompletedSteps(cfg, p, w));
      }
  }

  lemma CompletedOwn(cfg: Config, p: Db.Joined, w: World)
    ensures OnlyOwn(cfg, p, CompletedSteps(cfg, p, w))
  {
    match w.report
    case None =>
      ReportErrorOwn(cfg, p, ReportFailedMessage, ApiErrorType, w, w.cleanup);
    case Some(report) =>
      VerdictOwn(cfg, p, report, w);
      ArchiveOrdered(cfg, p, report, w);
      OnlyOwnConcat(cfg, p, VerdictSteps(cfg, p, report, w), ArchiveSteps(p, report, w));
  }

  // The paths of a pass.

  /** A timed-out profile is not polled: an error is stored first, the
      status `timeout` is written after the first deletion attempt, and a
      second deletion attempt follows it. */
  lemma TimeoutPath(cfg: Config, p: Db.Joined, w: World)
    requires TimedOut(cfg, p, w.now)
    ensures var es := ProcessSteps(cfg, p, w);
      && es[0] == Write(Db.StoreError(w.errorId, TimeoutMessage(cfg.timeoutMinutes), p.release.release,
                                      p.profile.token, w.now), w.errorRow)
      && !Polls(es)
      && (exists k :: && 0 < k < |es| - 1
                      && es[k] == Write(Db.UpdateScanProfileStatus(p.profile.id, "timeout", w.now), w.statusRow)
                      && AttemptsDeletion(es[..k])
                      && es[k + 1] == Provider(DeleteScanProfile(p.profile.token), w.retry.provider))
  {
    var report := ReportErrorSteps(cfg, p, TimeoutMessage(cfg.timeoutMinutes), TimeoutType, w, w.cleanup);
    var mark := [Write(Db.UpdateScanProfileStatus(p.profile.id, "timeout", w.now), w.statusRow)];
    var retry := DeleteSteps(p, w.retry, w.now);
    var es := report + mark + retry;
    assert ProcessSteps(cfg, p, w) == es;
    ReportErrorShape(cfg, p, TimeoutMessage(cfg.timeoutMinutes), TimeoutType, w, w.cleanup);
    ReportErrorFlags(cfg, p, TimeoutMessage(cfg.timeoutMinutes), TimeoutType, w, w.cleanup);
    DeleteFlags(p, w.retry, w.now);
    DeleteProtocol(p, w.retry, w.now);
    FlagsConcat(report, mark);
    FlagsConcat(report + mark, retry);
    var k := |report|;
    assert es[..k] == report;
    assert es[k] == mark[0];
    assert es[k + 1] == retry[0];
  }

  /** The timeout path stores one error and writes one status, `timeout`. */
  lemma TimeoutCounts(cfg: Config, p: Db.Joined, w: World)
    requires TimedOut(cfg, p, w.now)
    ensures StatusWrites(ProcessSteps(cfg, p, w)) == ["timeout"]
    ensures ErrorRecords(ProcessSteps(cfg, p, w)) == 1
  {
    var report := ReportErrorSteps(cfg, p, TimeoutMessage(cfg.timeoutMinutes), TimeoutType, w, w.cleanup);
    var mark := [Write(Db.UpdateScanProfileStatus(p.profile.id, "timeout", w.now), w.statusRow)];
    var retry := DeleteSteps(p, w.retry, w.now);
    assert ProcessSteps(cfg, p, w) == report + mark + retry;
    ReportErrorCounts(cfg, p, TimeoutMessage(cfg.timeoutMinutes), TimeoutType, w, w.cleanup);
    DeleteCounts(p, w.retry, w.now);
    SingleEvent(mark[0]);
    ObserversConcat(report, mark);
    ObserversConcat(report + mark, retry);
  }

  /** A profile whose verdict is already stored is only deleted. */
  lemma FinishedPath(cfg: Config, p: Db.Joined, w: World)
    requires !TimedOut(cfg, p, w.now) && AlreadyFinished(p.profile.status)
    ensures var es := ProcessSteps(cfg, p, w);
      && !Polls(es) && StatusWrites(es) == [] && ErrorRecords(es) == 0 && AttemptsDeletion(es)
      && forall e :: e in es ==> e.Provider? || IsProfileSoftDelete(e) || IsReleaseSoftDelete(e)
  {
    DeleteCounts(p, w.cleanup, w.now);
    DeleteFlags(p, w.cleanup, w.now);
  }

  /** A failed poll, or a state the provider reports as an error, stores one
      error saying so and deletes the profile; no status is written. */
  lemma ErrorStatePath(cfg: Config, p: Db.Joined, w: World)
    requires !TimedOut(cfg, p, w.now) && !AlreadyFinished(p.profile.status)
    requires w.poll.None? || IsErrorStatus(w.poll.value)
    ensures var es := ProcessSteps(cfg, p, w);
      && es[0] == Provider(GetScanStatus(p.profile.token), w.poll.Some?)
      && es[1].Write? && es[1].stmt.StoreError?
      && es[1].stmt.description == (if w.poll.None? then PollFailedMessage
                                    else "Scan returned with an error: " + w.poll.value)
      && StatusWrites(es) == [] && ErrorRecords(es) == 1 && AttemptsDeletion(es)
  {
    var poll := [Provider(GetScanStatus(p.profile.token), w.poll.Some?)];
    var description := if w.poll.None? then PollFailedMessage else "Scan returned with an error: " + w.poll.value;
    var errorType := if w.poll.None? then ApiErrorType else ScanErrorType;
    var rest := ReportErrorSteps(cfg, p, description, errorType, w, w.cleanup);
    assert PolledSteps(cfg, p, w) == rest;
    ReportErrorShape(cfg, p, description, errorType, w, w.cleanup);
    ReportErrorCounts(cfg, p, description, errorType, w, w.cleanup);
    ReportErrorFlags(cfg, p, description, errorType, w, w.cleanup);
    SingleEvent(poll[0]);
    ObserversConcat(poll, rest);
    FlagsConcat(poll, rest);
  }

  /** A stopped scan whose report cannot be fetched goes straight to an
      error report. */
  lemma MissingReportPath(cfg: Config, p: Db.Joined, w: World)
    requires !TimedOut(cfg, p, w.now) && !AlreadyFinished(p.profile.status)
    requires w.poll == Some("stopped") && w.report.None?
    ensures var es := ProcessSteps(cfg, p, w);
      && es[1] == Provider(GetFullScanReport(p.profile.token), false)
      && es[2].Write? && es[2].stmt.StoreError? && es[2].stmt.description == ReportFailedMessage
  {
    var head := [Provider(GetScanStatus(p.profile.token), true), Provider(GetFullScanReport(p.profile.token), false)];
    var rest := ReportErrorSteps(cfg, p, ReportFailedMessage, ApiErrorType, w, w.cleanup);
    assert !IsErrorStatus("stopped");
    assert ProcessSteps(cfg, p, w) == head + rest;
    ReportErrorShape(cfg, p, ReportFailedMessage, ApiErrorType, w, w.cleanup);
  }

  /** A stopped scan with a report: the platform gets the verdict (success
      below a score of 6, fail otherwise) with a link to the report. */
  lemma VerdictPath(cfg: Config, p: Db.Joined, w: World)
    requires !TimedOut(cfg, p, w.now) && !AlreadyFinished(p.profile.status)
    requires w.poll == Some("stopped") && w.report.Some?
    ensures var es := ProcessSteps(cfg, p, w);
      && es[2] == Platform(VerdictRequest(cfg, p, w.report.value.cvss), w.posted)
      && es[2].request.body.value.state == Verdict(w.report.value.cvss)
      && es[2].request.body.value.targetUrl == Some(ReportLink(cfg, p))
  {
    assert !IsErrorStatus("stopped");
  }

  /** What follows a fetched or failed report: one error when the report
      is missing, else the verdict as the only status written, once the
      platform took it. */
  lemma CompletedCounts(cfg: Config, p: Db.Joined, w: World)
    ensures StatusWrites(CompletedSteps(cfg, p, w))
         == (if w.report.Some? && w.posted then [Verdict(w.report.value.cvss)] else [])
    ensures ErrorRecords(CompletedSteps(cfg, p, w)) == (if w.report.None? then 1 else 0)
  {
    match w.report
    case None =>
      ReportErrorCounts(cfg, p, ReportFailedMessage, ApiErrorType, w, w.cleanup);
    case Some(report) =>
      VerdictCounts(cfg, p, report, w);
      ArchiveCounts(p, report, w);
      ObserversConcat(VerdictSteps(cfg, p, report, w), ArchiveSteps(p, report, w));
  }

  /** A missing report ends in a deletion attempt; a fetched one is followed
      by a deletion exactly when it was archived and its key stored. */
  lemma CompletedFlags(cfg: Config, p: Db.Joined, w: World)
    ensures AttemptsDeletion(CompletedSteps(cfg, p, w)) <==> w.report.None? || (w.uploaded && w.keyRow)
    ensures StoresReportKey(CompletedSteps(cfg, p, w)) <==> w.report.Some? && w.uploaded
    ensures !Polls(CompletedSteps(cfg, p, w))
  {
    match w.report
    case None =>
      ReportErrorFlags(cfg, p, ReportFailedMessage, ApiErrorType, w, w.cleanup);
    case Some(report) =>
      VerdictFlags(cfg, p, report, w);
      ArchiveFlags(p, report, w);
      FlagsConcat(VerdictSteps(cfg, p, report, w), ArchiveSteps(p, report, w));
      StoresReportKeyConcat(VerdictSteps(cfg, p, report, w), ArchiveSteps(p, report, w));
  }

  /** The same after the status poll and the report fetch. */
  lemma StoppedCounts(cfg: Config, p: Db.Joined, w: World)
    requires !TimedOut(cfg, p, w.now) && !AlreadyFinished(p.profile.status)
    requires w.poll == Some("stopped")
    ensures StatusWrites(ProcessSteps(cfg, p, w))
         == (if w.report.Some? && w.posted then [Verdict(w.report.value.cvss)] else [])
    ensures ErrorRecords(ProcessSteps(cfg, p, w)) == (if w.report.None? then 1 else 0)
  {
    var poll := [Provider(GetScanStatus(p.profile.token), true)];
    var fetch := [Provider(GetFullScanReport(p.profile.token), w.report.Some?)];
    assert !IsErrorStatus("stopped");
    assert PolledSteps(cfg, p, w) == fetch + CompletedSteps(cfg, p, w);
    CompletedCounts(cfg, p, w);
    SingleEvent(poll[0]);
    SingleEvent(fetch[0]);
    ObserversConcat(fetch, CompletedSteps(cfg, p, w));
    ObserversConcat(poll, PolledSteps(cfg, p, w));
  }

  /** The report key is stored exactly when the report was fetched and
      uploaded; the profile is deleted when the report is missing, or else
      exactly when the key was stored too. */
  lemma StoppedFlags(cfg: Config, p: Db.Joined, w: World)
    requires !TimedOut(cfg, p, w.now) && !AlreadyFinished(p.profile.status)
    requires w.poll == Some("stopped")
    ensures AttemptsDeletion(ProcessSteps(cfg, p, w)) <==> w.report.None? || (w.uploaded && w.keyRow)
    ensures StoresReportKey(ProcessSteps(cfg, p, w)) <==> w.report.Some? && w.uploaded
  {
    var poll := [Provider(GetScanStatus(p.profile.token), true)];
    var fetch := [Provider(GetFullScanReport(p.profile.token), w.report.Some?)];
    assert !IsErrorStatus("stopped");
    assert PolledSteps(cfg, p, w) == fetch + CompletedSteps(cfg, p, w);
    CompletedFlags(cfg, p, w);
    assert !AttemptsDeletion(poll) && !StoresReportKey(poll);
    assert !AttemptsDeletion(fetch) && !StoresReportKey(fetch);
    FlagsConcat(fetch, CompletedSteps(cfg, p, w));
    FlagsConcat(poll, PolledSteps(cfg, p, w));
    StoresReportKeyConcat(fetch, CompletedSteps(cfg, p, w));
    StoresReportKeyConcat(poll, PolledSteps(cfg, p, w));
  }

  /** Any other state: written to the store and echoed to the platform as a
      pending status when it differs from the stored one; nothing at all
      happens after the poll when it does not. */
  lemma ProgressPath(cfg: Config, p: Db.Joined, w: World)
    requires !TimedOut(cfg, p, w.now) && !AlreadyFinished(p.profile.status)
    requires w.poll.Some? && !IsErrorStatus(w.poll.value) && w.poll.value != "stopped"
    ensures var es := ProcessSteps(cfg, p, w);
      && ErrorRecords(es) == 0 && !AttemptsDeletion(es)
      && StatusWrites(es) == (if w.poll.value != p.profile.status then [w.poll.value] else [])
      && (w.poll.value != p.profile.status ==>
            es[|es| - 1] == Platform(ProgressRequest(cfg, p, w.poll.value), w.posted)
            && es[|es| - 1].request.body.value.state == "pending"
            && es[|es| - 1].request.body.value.targetUrl.None?)
      && (w.poll.value == p.profile.status ==> |es| == 1)
  {
    var es := ProcessSteps(cfg, p, w);
    if w.poll.value != p.profile.status {
      assert es == [es[0], es[1], es[2]];
      assert StatusWrites(es) == StatusWrites(es[1..]);
      assert StatusWrites(es[1..]) == [w.poll.value] + StatusWrites(es[2..]);
      assert ErrorRecords(es) == ErrorRecords(es[1..]) == ErrorRecords(es[2..]) == 0;
    } else {
      assert es == [es[0]];
    }
  }

  /** The first event decides the path: an error row exactly when the
      profile has timed out, the status poll exactly when it has neither
      timed out nor already finished. */
  lemma FirstEvent(cfg: Config, p: Db.Joined, w: World)
    ensures var es := ProcessSteps(cfg, p, w);
      && ((es[0].Write? && es[0].stmt.StoreError?) <==> TimedOut(cfg, p, w.now))
      && ((es[0].Provider? && es[0].call.GetScanStatus?) <==>
            !TimedOut(cfg, p, w.now) && !AlreadyFinished(p.profile.status))
  {
    if TimedOut(cfg, p, w.now) {
      ReportErrorShape(cfg, p, TimeoutMessage(cfg.timeoutMinutes), TimeoutType, w, w.cleanup);
    } else if AlreadyFinished(p.profile.status) {
      DeleteProtocol(p, w.cleanup, w.now);
    }
  }

  /** A pass stores at most one error. */
  lemma AtMostOneError(cfg: Config, p: Db.Joined, w: World)
    ensures ErrorRecords(ProcessSteps(cfg, p, w)) <= 1
  {
    if TimedOut(cfg, p, w.now) {
      TimeoutCounts(cfg, p, w);
    } else if AlreadyFinished(p.profile.status) {
      FinishedPath(cfg, p, w);
    } else if w.poll.None? || IsErrorStatus(w.poll.value) {
      ErrorStatePath(cfg, p, w);
    } else if w.poll.value == "stopped" {
      StoppedCounts(cfg, p, w);
    } else {
      ProgressPath(cfg, p, w);
    }
  }

  // Passes and the store.

  /** A deletion that the provider and both statements accepted retires the
      profile: neither it nor any profile of its release is pending any
      more. */
  lemma DeletionRetires(t: Db.Tables, p: Db.Joined, c: Cleanup, at: int)
    requires c.provider && c.profileRow && c.releaseRow
    ensures forall j :: j in Db.GetPendingProfiles(Replay(t, DeleteSteps(p, c, at))) ==>
              j.profile.id != p.profile.id && j.release.release != p.release.release
  {
    var es := DeleteSteps(p, c, at);
    assert es == [es[0], es[1], es[2]];
    var t1 := Db.Apply(t, Db.DeleteScanProfile(p.profile.id, at));
    var t2 := Db.Apply(t1, Db.DeleteRelease(p.release.release, at));
    assert es[..1] == [es[0]] && es[..1][..0] == [];
    assert Replay(t, es[..1]) == t;
    assert es[..2][..1] == es[..1];
    assert Replay(t, es[..2]) == t1;
    assert Replay(t, es) == t2;
    Db.DeletedProfileAndReleaseNeverPending(t, p.profile.id, p.release.release, at);
  }

  /** A pass without an accepted status write leaves every stored status as
      it was. */
  lemma StatusesKept(cfg: Config, p: Db.Joined, w: World, t: Db.Tables)
    requires StatusWrites(ProcessSteps(cfg, p, w)) == []
    ensures |Replay(t, ProcessSteps(cfg, p, w)).profiles| == |t.profiles|
    ensures forall i :: 0 <= i < |t.profiles| ==>
              Replay(t, ProcessSteps(cfg, p, w)).profiles[i].status == t.profiles[i].status
  {
    var es := ProcessSteps(cfg, p, w);
    ProcessOwn(cfg, p, w);
    NoStatusWrite(es);
    forall i | 0 <= i < |es| && es[i].Write? && es[i].ok
      ensures !es[i].stmt.UpdateScanProfileStatus? && !es[i].stmt.StoreScanProfile?
    {
      assert es[i] in es;
    }
    StatusKept(t, es);
  }

  /** A whole pass keeps the deletion protocol. */
  lemma {:induction false} SweepOrdered(cfg: Config, rows: seq<Db.Joined>, worlds: nat -> World)
    ensures DeletionOrdered(SweepSteps(cfg, rows, worlds))
    decreases |rows|
  {
    if rows != [] {
      SweepOrdered(cfg, rows[..|rows| - 1], worlds);
      ProcessOrdered(cfg, rows[|rows| - 1], worlds(|rows| - 1));
      DeletionOrderedConcat(SweepSteps(cfg, rows[..|rows| - 1], worlds),
                            ProcessSteps(cfg, rows[|rows| - 1], worlds(|rows| - 1)));
    }
  }

  /** Every event of a whole pass concerns one of the listed profiles, and
      the pass stores at most one error per listed profile. */
  lemma {:induction false} SweepOwn(cfg: Config, rows: seq<Db.Joined>, worlds: nat -> World)
    ensures forall e :: e in SweepSteps(cfg, rows, worlds) ==>
              exists k :: 0 <= k < |rows| && Concerns(cfg, rows[k], e)
    ensures ErrorRecords(SweepSteps(cfg, rows, worlds)) <= |rows|
    decreases |rows|
  {
    if rows != [] {
      var n := |rows| - 1;
      var front := SweepSteps(cfg, rows[..n], worlds);
      var last := ProcessSteps(cfg, rows[n], worlds(n));
      SweepOwn(cfg, rows[..n], worlds);
      ProcessOwn(cfg, rows[n], worlds(n));
      AtMostOneError(cfg, rows[n], worlds(n));
      ObserversConcat(front, last);
      forall e | e in front + last
        ensures exists k :: 0 <= k < |rows| && Concerns(cfg, rows[k], e)
      {
        if e in front {
          var k :| 0 <= k < n && Concerns(cfg, rows[..n][k], e);
          assert rows[k] == rows[..n][k];
        } else {
          assert Concerns(cfg, rows[n], e);
        }
      }
    }
  }
}
