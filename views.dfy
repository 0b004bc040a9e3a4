/** The read-only request handlers of the controller: the error-details
    page, a scan profile and its archived report, the report-details page
    and the scan lists. Each is a function of the request parameter, the
    store's tables, whether the query failed, and (for reports) what object
    storage holds. */
module Views {
  import opened Util
  import Db
  import opened Effects
  import TaskHandler
  import Controller

  /** A handler's answer: a bare status code, a 200 with a JSON body, a
      rendered page, or nothing at all when the handler throws after its
      query (the request is then left unanswered). */
  datatype Reply<T> = Status(code: int) | Json(body: T) | Page(view: T) | Unanswered

  // ---------------------------------------------------------------------
  // Error ids

  predicate IsHexDigit(c: char) {
    ('0' <= c <= '9') || ('a' <= c <= 'f') || ('A' <= c <= 'F')
  }

  predicate AllHex(s: string) {
    forall i :: 0 <= i < |s| ==> IsHexDigit(s[i])
  }

  predicate IsDashPosition(i: int) {
    i == 8 || i == 13 || i == 18 || i == 23
  }

  predicate IsVariant(c: char) {
    c in {'8', '9', 'a', 'b', 'A', 'B'}
  }

  /** The version-4 UUID pattern, matched ignoring case, read position by
      position: dashes at 8, 13, 18 and 23, the version digit `4` at 14, a
      variant digit at 19 and hex digits everywhere else. */
  predicate IsUuid(s: string)
    ensures IsUuid(s) ==> |s| == 36 && forall i :: 0 <= i < |s| ==> IsHexDigit(s[i]) || s[i] == '-'
  {
    && |s| == 36
    && (forall i :: 0 <= i < 36 && IsDashPosition(i) ==> s[i] == '-')
    && (forall i :: 0 <= i < 36 && !IsDashPosition(i) && i != 14 && i != 19 ==> IsHexDigit(s[i]))
    && s[14] == '4'
    && IsVariant(s[19])
  }

  /** The same pattern read group by group: five runs of 8, 4, 4, 4 and 12
      hex digits joined by dashes, the third run starting with `4` and the
      fourth with a variant digit. */
  predicate GroupsShape(g1: string, g2: string, g3: string, v: char, g4: string, g5: string) {
    && |g1| == 8 && |g2| == 4 && |g3| == 3 && |g4| == 3 && |g5| == 12
    && AllHex(g1) && AllHex(g2) && AllHex(g3) && AllHex(g4) && AllHex(g5)
    && IsVariant(v)
  }

  function JoinGroups(g1: string, g2: string, g3: string, v: char, g4: string, g5: string): string {
    g1 + "-" + g2 + "-4" + g3 + "-" + [v] + g4 + "-" + g5
  }

  /** Every string the pattern describes group by group passes the check. */
  lemma UuidFromGroups(g1: string, g2: string, g3: string, v: char, g4: string, g5: string)
    requires GroupsShape(g1, g2, g3, v, g4, g5)
    ensures IsUuid(JoinGroups(g1, g2, g3, v, g4, g5))
  {
    var s := JoinGroups(g1, g2, g3, v, g4, g5);
    assert |s| == 36;
    forall i | 0 <= i < 36
      ensures s[i] == if i < 8 then g1[i]
                      else if i == 8 || i == 13 || i == 18 || i == 23 then '-'
                      else if i < 13 then g2[i - 9]
                      else if i == 14 then '4'
                      else if i < 18 then g3[i - 15]
                      else if i == 19 then v
                      else if i < 23 then g4[i - 20]
                      else g5[i - 24]
    {
    }
  }

  /** Every string that passes the check splits into the pattern's groups. */
  lemma UuidGroups(s: string)
    requires IsUuid(s)
    ensures GroupsShape(s[..8], s[9..13], s[15..18], s[19], s[20..23], s[24..])
    ensures s == JoinGroups(s[..8], s[9..13], s[15..18], s[19], s[20..23], s[24..])
  {
    assert forall i :: 0 <= i < 8 ==> s[..8][i] == s[i];
    assert forall i :: 0 <= i < 4 ==> s[9..13][i] == s[i + 9];
    assert forall i :: 0 <= i < 3 ==> s[15..18][i] == s[i + 15];
    assert forall i :: 0 <= i < 3 ==> s[20..23][i] == s[i + 20];
    assert forall i :: 0 <= i < 12 ==> s[24..][i] == s[i + 24];
    var joined := JoinGroups(s[..8], s[9..13], s[15..18], s[19], s[20..23], s[24..]);
    assert |joined| == 36;
    forall i | 0 <= i < 36 ensures joined[i] == s[i] {
    }
  }

  function UpperChar(c: char): char {
    if 'a' <= c <= 'z' then (c as int - 32) as char else c
  }

  function Upper(s: string): (u: string)
    ensures |u| == |s| && forall i :: 0 <= i < |s| ==> u[i] == UpperChar(s[i])
  {
    seq(|s|, i requires 0 <= i < |s| => UpperChar(s[i]))
  }

  /** The check ignores case: an id passes exactly when its upper-case
      spelling does. */
  lemma UuidIgnoresCase(s: string)
    ensures IsUuid(s) <==> IsUuid(Upper(s))
  {
    var u := Upper(s);
    if |s| == 36 {
      assert forall i :: 0 <= i < 36 ==> (IsHexDigit(s[i]) <==> IsHexDigit(u[i]));
      assert forall i :: 0 <= i < 36 ==> (s[i] == '-' <==> u[i] == '-');
      assert s[14] == '4' <==> u[14] == '4';
      assert IsVariant(s[19]) <==> IsVariant(u[19]);
    }
  }

  // ---------------------------------------------------------------------
  // The error-details page

  const ErrorTitle := "Detectify Error Details"
  const InvalidErrorId := "Invalid errorID!"
  const ErrorNotFound := "Requested error details not found"

  /** What the error-details page is given; `None` is a value the page
      receives as undefined. */
  datatype ErrorView = ErrorView(
    title: string,
    description: string,
    createdAt: Option<int>,
    appName: Option<string>,
    releaseId: Option<string>,
    scanStatus: Option<string>,
    appUrl: Option<string>,
    releaseUrl: Option<string>)

  function MessagePage(description: string): ErrorView {
    ErrorView(ErrorTitle, description, None, None, None, None, None, None)
  }

  /** A possibly undefined value inside a template string. */
  function Shown(v: Option<string>): string {
    match v
    case None => "undefined"
    case Some(s) => s
  }

  /** The error id is checked before any query. */
  predicate ValidErrorId(param: Option<string>) {
    Truthy(param) && IsUuid(param.value)
  }

  /** The page built from the error row as the error query returns it: the
      row carries no app name, scan status or profile creation time, so
      those are undefined and the links name the app `undefined`. */
  function ErrorPage(e: Db.ErrorRow, ui: string): ErrorView {
    ErrorView(ErrorTitle, e.description, None, None, Some(e.release), None,
              Some(ui + "/apps/" + Shown(None)), Some(ui + "/apps/" + Shown(None) + "/releases"))
  }

  /** renderError as written. */
  function RenderError(param: Option<string>, queryOk: bool, errors: seq<Db.ErrorRow>, ui: string): (r: Reply<ErrorView>)
    ensures !ValidErrorId(param) <==> r == Page(MessagePage(InvalidErrorId))
    ensures ValidErrorId(param) && !queryOk <==> r == Page(MessagePage(ErrorNotFound))
    ensures r.Unanswered? <==> ValidErrorId(param) && queryOk && Db.GetError(errors, param.value).None?
    ensures r.Page? && r.view.releaseId.Some? ==>
              exists e :: e in errors && e.id == param.value && r.view == ErrorPage(e, ui)
  {
    if !ValidErrorId(param) then Page(MessagePage(InvalidErrorId))
    else if !queryOk then Page(MessagePage(ErrorNotFound))
    else
      match Db.GetError(errors, param.value)
      case None => Unanswered
      case Some(e) => Page(ErrorPage(e, ui))
  }

  /** As written, a found error's page never names its app: the name is
      undefined and the app link ends in `/apps/undefined`, whatever the
      store holds. */
  lemma ErrorPageLacksApp(param: Option<string>, errors: seq<Db.ErrorRow>, ui: string)
    requires ValidErrorId(param) && Db.GetError(errors, param.value).Some?
    ensures var r := RenderError(param, true, errors, ui);
            r.Page? && r.view.appName.None? && r.view.scanStatus.None? && r.view.createdAt.None?
            && r.view.appUrl == Some(ui + "/apps/undefined")
  {
    assert Shown(None) == "undefined";
    assert "/apps/" + "undefined" == "/apps/undefined";
    assert ui + "/apps/" + "undefined" == ui + ("/apps/" + "undefined");
  }

  /** The first release row of a release id. */
  function FirstRelease(rs: seq<Db.ReleaseRow>, releaseId: string): (r: Option<Db.ReleaseRow>)
    ensures r.Some? ==> r.value in rs && r.value.release == releaseId
    ensures r.None? <==> forall x :: x in rs ==> x.release != releaseId
  {
    if rs == [] then None
    else if rs[0].release == releaseId then Some(rs[0])
    else FirstRelease(rs[1..], releaseId)
  }

  /** The first profile row an error refers to. */
  function FirstProfile(ps: seq<Db.ProfileRow>, id: string): (r: Option<Db.ProfileRow>)
    ensures r.Some? ==> r.value in ps && r.value.id == id
    ensures r.None? <==> forall x :: x in ps ==> x.id != id
  {
    if ps == [] then None
    else if ps[0].id == id then Some(ps[0])
    else FirstProfile(ps[1..], id)
  }

  /** The page the template asks for: the app name from the error's release
      row, and the scan status and creation time from the profile the error
      refers to, when there is one. */
  function JoinedErrorPage(t: Db.Tables, e: Db.ErrorRow, ui: string): ErrorView {
    var app := match FirstRelease(t.releases, e.release)
               case None => None
               case Some(rel) => Some(rel.appName);
    var profile := match e.scanProfile
                   case None => None
                   case Some(id) => FirstProfile(t.profiles, id);
    ErrorView(ErrorTitle, e.description,
              match profile case None => None case Some(p) => Some(p.createdAt),
              app, Some(e.release),
              match profile case None => None case Some(p) => Some(p.status),
              Some(ui + "/apps/" + Shown(app)), Some(ui + "/apps/" + Shown(app) + "/releases"))
  }

  /** renderError with the error row joined to its release and profile. */
  function RenderErrorJoined(param: Option<string>, queryOk: bool, t: Db.Tables, ui: string): (r: Reply<ErrorView>)
    ensures !ValidErrorId(param) <==> r == Page(MessagePage(InvalidErrorId))
    ensures ValidErrorId(param) && !queryOk <==> r == Page(MessagePage(ErrorNotFound))
    ensures r.Unanswered? <==> ValidErrorId(param) && queryOk && Db.GetError(t.errors, param.value).None?
    ensures r.Page? && r.view.releaseId.Some? ==>
              exists e :: e in t.errors && e.id == param.value && r.view.description == e.description
                          && r.view.releaseId == Some(e.release)
  {
    if !ValidErrorId(param) then Page(MessagePage(InvalidErrorId))
    else if !queryOk then Page(MessagePage(ErrorNotFound))
    else
      match Db.GetError(t.errors, param.value)
      case None => Unanswered
      case Some(e) => Page(JoinedErrorPage(t, e, ui))
  }

  /** The joined page names the app of the error's release when that
      release has a row. */
  lemma JoinedPageNamesApp(t: Db.Tables, e: Db.ErrorRow, ui: string)
    requires FirstRelease(t.releases, e.release).Some?
    ensures JoinedErrorPage(t, e, ui).appName == Some(FirstRelease(t.releases, e.release).value.appName)
    ensures JoinedErrorPage(t, e, ui).appUrl == Some(ui + "/apps/" + FirstRelease(t.releases, e.release).value.appName)
  {
  }

  /** An error the provisioner reports, with a fresh id, is shown with the
      name of the app whose release it concerns once that release row is
      stored; as written the same page names no app. */
  lemma ReportedErrorNamesApp(t: Db.Tables, cfg: Config, target: Target, description: string,
                              link: string, w: Controller.World, ui: string)
    requires w.errorRow && IsUuid(w.errorId)
    requires forall x :: x in t.errors ==> x.id != w.errorId
    requires FirstRelease(t.releases, target.releaseId).Some?
    ensures var after := Replay(t, Controller.ServiceErrorSteps(cfg, target, description, link, w));
            var r := RenderErrorJoined(Some(w.errorId), true, after, ui);
            && r.Page? && r.view.description == description
            && r.view.appName == Some(FirstRelease(t.releases, target.releaseId).value.appName)
            && r.view.appUrl == Some(ui + "/apps/" + FirstRelease(t.releases, target.releaseId).value.appName)
    ensures var after := Replay(t, Controller.ServiceErrorSteps(cfg, target, description, link, w));
            RenderError(Some(w.errorId), true, after.errors, ui).view.appName.None?
  {
    var row := Db.NewError(w.errorId, description, target.releaseId, link, w.now);
    var after := t.(errors := t.errors + [row]);
    Controller.ServiceErrorStored(t, cfg, target, description, link, w);
    Db.StoredErrorFound(t.errors, row);
    JoinedPageNamesApp(after, row, ui);
  }

  // ---------------------------------------------------------------------
  // A scan profile and its report

  /** getProfile: 404 without an id or when the query fails; otherwise a
      200 whose body is the profile's first joined row, or empty when there
      is none. */
  function GetProfile(param: Option<string>, queryOk: bool, t: Db.Tables): (r: Reply<Option<Db.Joined>>)
    ensures r.Status? <==> !Truthy(param) || !queryOk
    ensures r.Status? ==> r.code == 404
    ensures r.Json? ==> (r.body.None? <==> forall p, rel :: p in t.profiles && rel in t.releases && p.release == rel.release ==> p.id != param.value)
    ensures r.Json? && r.body.Some? ==> r.body.value.profile.id == param.value && r.body.value.profile in t.profiles
                                        && r.body.value.release in t.releases && Db.Matches(r.body.value)
  {
    if !Truthy(param) || !queryOk then Status(404)
    else Json(Db.GetScanProfile(t, param.value))
  }

  /** The row's report key when it has a non-empty one. */
  predicate HasReport(t: Db.Tables, id: string) {
    var row := Db.GetScanProfile(t, id);
    row.Some? && Truthy(row.value.profile.reportFilename)
  }

  function ReportKey(t: Db.Tables, id: string): string
    requires HasReport(t, id)
  {
    Db.GetScanProfile(t, id).value.profile.reportFilename.value
  }

  /** getReport: 404 without an id or when the query fails, 400 when the
      profile is missing or has no report key, 500 when object storage has
      nothing under the key, and the stored report otherwise. */
  function GetReport(param: Option<string>, queryOk: bool, t: Db.Tables, objects: map<string, string>): (r: Reply<string>)
    ensures r == Status(404) <==> !Truthy(param) || !queryOk
    ensures r == Status(400) <==> Truthy(param) && queryOk && !HasReport(t, param.value)
    ensures r == Status(500) <==> Truthy(param) && queryOk && HasReport(t, param.value) && ReportKey(t, param.value) !in objects
    ensures r.Json? ==> Truthy(param) && queryOk && HasReport(t, param.value)
                        && ReportKey(t, param.value) in objects && r.body == objects[ReportKey(t, param.value)]
    ensures !r.Page? && !r.Unanswered?
  {
    if !Truthy(param) || !queryOk then Status(404)
    else if !HasReport(t, param.value) then Status(400)
    else if ReportKey(t, param.value) !in objects then Status(500)
    else Json(objects[ReportKey(t, param.value)])
  }

  /** Every row of the profile carries the key, and the profile can be
      looked up. */
  predicate ServesKey(t: Db.Tables, id: string, key: string) {
    && Db.GetScanProfile(t, id).Some?
    && forall q :: q in t.profiles && q.id == id ==> q.reportFilename == Some(key)
  }

  lemma KeyStored(t: Db.Tables, id: string, key: string, at: int)
    requires Db.GetScanProfile(t, id).Some?
    ensures ServesKey(Db.Apply(t, Db.UpdateScanProfileReport(id, key, at)), id, key)
  {
    var after := Db.Apply(t, Db.UpdateScanProfileReport(id, key, at));
    var j := Db.GetScanProfile(t, id).value;
    var k :| 0 <= k < |t.profiles| && t.profiles[k] == j.profile;
    assert after.profiles[k].release == j.release.release && after.profiles[k].id == id;
    assert after.profiles[k] in after.profiles && j.release in after.releases;
    forall q | q in after.profiles && q.id == id ensures q.reportFilename == Some(key) {
      var m :| 0 <= m < |after.profiles| && after.profiles[m] == q;
    }
  }

  /** Soft-deleting the profile keeps its report reachable. */
  lemma KeyKeptByProfileDeletion(t: Db.Tables, id: string, key: string, other: string, at: int)
    requires ServesKey(t, id, key)
    ensures ServesKey(Db.Apply(t, Db.DeleteScanProfile(other, at)), id, key)
  {
    var after := Db.Apply(t, Db.DeleteScanProfile(other, at));
    var j := Db.GetScanProfile(t, id).value;
    var k :| 0 <= k < |t.profiles| && t.profiles[k] == j.profile;
    assert after.profiles[k] in after.profiles && after.releases == t.releases;
    assert after.profiles[k].id == id && after.profiles[k].release == j.release.release;
    forall q | q in after.profiles && q.id == id ensures q.reportFilename == Some(key) {
      var m :| 0 <= m < |after.profiles| && after.profiles[m] == q;
      assert t.profiles[m].id == id;
    }
  }

  /** Soft-deleting the release keeps the report reachable. */
  lemma KeyKeptByReleaseDeletion(t: Db.Tables, id: string, key: string, releaseId: string, at: int)
    requires ServesKey(t, id, key)
    ensures ServesKey(Db.Apply(t, Db.DeleteRelease(releaseId, at)), id, key)
  {
    var after := Db.Apply(t, Db.DeleteRelease(releaseId, at));
    var j := Db.GetScanProfile(t, id).value;
    var n :| 0 <= n < |t.releases| && t.releases[n] == j.release;
    assert after.releases[n] in after.releases && after.profiles == t.profiles;
    assert after.releases[n].release == j.profile.release;
  }

  lemma {:induction false} KeyKeptByDeletions(t: Db.Tables, id: string, key: string, es: seq<Event>)
    requires ServesKey(t, id, key)
    requires forall i :: 0 <= i < |es| ==> es[i].Provider? || IsProfileSoftDelete(es[i]) || IsReleaseSoftDelete(es[i])
    ensures ServesKey(Replay(t, es), id, key)
    decreases |es|
  {
    if es != [] {
      KeyKeptByDeletions(t, id, key, es[..|es| - 1]);
      var last := es[|es| - 1];
      if last.Write? && last.ok {
        match last.stmt
        case DeleteScanProfile(other, at) =>
          KeyKeptByProfileDeletion(Replay(t, es[..|es| - 1]), id, key, other, at);
        case DeleteRelease(releaseId, at) =>
          KeyKeptByReleaseDeletion(Replay(t, es[..|es| - 1]), id, key, releaseId, at);
      }
    }
  }

  /** Once every row of a profile carries a key that object storage holds,
      getReport serves what is stored under it. */
  lemma ServedReport(t: Db.Tables, id: string, key: string, objects: map<string, string>)
    requires ServesKey(t, id, key) && id != "" && key != "" && key in objects
    ensures GetReport(Some(id), true, t, objects) == Json(objects[key])
  {
    assert HasReport(t, id) && ReportKey(t, id) == key;
  }

  /** Archiving with both the upload and the key write accepted: the store
      gets the key, then whatever the deletion does. */
  lemma ArchiveReplay(t: Db.Tables, p: Db.Joined, report: TaskHandler.Report, w: TaskHandler.World)
    requires w.uploaded && w.keyRow
    ensures Replay(t, TaskHandler.ArchiveSteps(p, report, w))
            == Replay(Db.Apply(t, Db.UpdateScanProfileReport(p.profile.id, TaskHandler.ArchiveKey(p.profile.token, w.archiveClock), w.now)),
                      TaskHandler.DeleteSteps(p, w.cleanup, w.now))
  {
    var key := TaskHandler.ArchiveKey(p.profile.token, w.archiveClock);
    var upload := Upload(key, report.json, p.profile.token, true);
    var write := Write(Db.UpdateScanProfileReport(p.profile.id, key, w.now), true);
    ReplayCons(t, upload, TaskHandler.KeySteps(p, key, w));
    ReplayCons(t, write, TaskHandler.DeleteSteps(p, w.cleanup, w.now));
  }

  /** Once the key is written, every row of the profile carries it, whatever
      the deletion that follows does. */
  lemma KeyOutlivesDeletion(t: Db.Tables, p: Db.Joined, key: string, c: TaskHandler.Cleanup, at: int)
    requires Db.GetScanProfile(t, p.profile.id).Some?
    ensures ServesKey(Replay(Db.Apply(t, Db.UpdateScanProfileReport(p.profile.id, key, at)),
                             TaskHandler.DeleteSteps(p, c, at)), p.profile.id, key)
  {
    var deletion := TaskHandler.DeleteSteps(p, c, at);
    KeyStored(t, p.profile.id, key, at);
    TaskHandler.DeleteFlags(p, c, at);
    assert forall i :: 0 <= i < |deletion| ==> deletion[i] in deletion;
    KeyKeptByDeletions(Db.Apply(t, Db.UpdateScanProfileReport(p.profile.id, key, at)), p.profile.id, key, deletion);
  }

  /** A report the reconciler archived, with its key stored, is served by
      getReport from then on, even after the profile and its release are
      soft-deleted: the profile query does not filter deleted rows. */
  lemma ArchivedReportServed(t: Db.Tables, p: Db.Joined, report: TaskHandler.Report,
                             w: TaskHandler.World, objects: map<string, string>)
    requires w.uploaded && w.keyRow
    requires p.profile.id != "" && Db.GetScanProfile(t, p.profile.id).Some?
    requires var key := TaskHandler.ArchiveKey(p.profile.token, w.archiveClock);
             key in objects && objects[key] == report.json
    ensures GetReport(Some(p.profile.id), true, Replay(t, TaskHandler.ArchiveSteps(p, report, w)), objects)
            == Json(report.json)
  {
    var key := TaskHandler.ArchiveKey(p.profile.token, w.archiveClock);
    ArchiveReplay(t, p, report, w);
    KeyOutlivesDeletion(t, p, key, w.cleanup, w.now);
    ServedReport(Replay(t, TaskHandler.ArchiveSteps(p, report, w)), p.profile.id, key, objects);
  }

  /** A profile the provisioner stored can be fetched by its id. */
  lemma ProvisionedProfileFound(t: Db.Tables, a: Controller.Accepted, w: Controller.World)
    requires Controller.ScanStarted(w) && w.profileId != ""
    ensures var r := GetProfile(Some(w.profileId), true, Controller.ProvisionedState(t, a, w));
            r.Json? && r.body.Some? && r.body.value.profile.id == w.profileId
  {
    var after := Controller.ProvisionedState(t, a, w);
    var sp := w.profile.value;
    var row := Db.NewProfile(w.profileId, a.releaseId, sp.name, sp.endpoint, Controller.ProfileCreated, sp.token, w.now);
    var last := |t.profiles|;
    assert (t.profiles + [row])[last] == row;
    assert after.profiles[last].id == w.profileId && after.profiles[last].release == a.releaseId;
    assert after.releases[|t.releases|] == Controller.ProvisionedRelease(a, w);
    assert after.profiles[last] in after.profiles && Controller.ProvisionedRelease(a, w) in after.releases;
  }

  // ---------------------------------------------------------------------
  // The report-details page

  const SuccessIcon := "/success_lg.png"
  const PendingIcon := "/pending_lg.png"
  const FailureIcon := "/failure_lg.png"

  /** The page icon: success for `success`, pending while the scan is
      starting or running, and failure for every other status, including
      `profile_created`, `stopping` and `fail`. */
  function Favicon(status: string): (icon: string)
    ensures icon == SuccessIcon <==> status == "success"
    ensures icon == PendingIcon <==> status == "running" || status == "starting"
    ensures icon == FailureIcon <==> status != "success" && status != "running" && status != "starting"
  {
    match status
    case "success" => SuccessIcon
    case "running" => PendingIcon
    case "starting" => PendingIcon
    case _ => FailureIcon
  }

  datatype ReportView = ReportView(
    title: string,
    profileId: string,
    profileName: string,
    endpoint: string,
    appName: string,
    appUrl: string,
    releaseUrl: string,
    releaseId: string,
    reportFilename: Option<string>,
    createdAt: int,
    favicon: string,
    scanStatus: string)

  /** renderDetails: 404 without an id or when the query fails; a missing
      profile makes the handler throw, leaving the request unanswered. */
  function RenderDetails(param: Option<string>, queryOk: bool, t: Db.Tables, ui: string): (r: Reply<ReportView>)
    ensures r.Status? <==> !Truthy(param) || !queryOk
    ensures r.Status? ==> r.code == 404
    ensures r.Unanswered? <==> Truthy(param) && queryOk && Db.GetScanProfile(t, param.value).None?
    ensures r.Page? ==> && r.view.profileId == param.value
                        && r.view.favicon == Favicon(r.view.scanStatus)
                        && exists j :: j in Db.Join(t.profiles, t.releases) && j.profile.id == param.value
                                       && r.view.scanStatus == j.profile.status
                                       && r.view.appUrl == ui + "/apps/" + j.release.appName
  {
    if !Truthy(param) || !queryOk then Status(404)
    else
      match Db.GetScanProfile(t, param.value)
      case None => Unanswered
      case Some(j) =>
        Page(ReportView("Detectify Scan Report", param.value, j.profile.name, j.profile.endpoint,
                        j.release.appName, ui + "/apps/" + j.release.appName,
                        ui + "/apps/" + j.release.appName + "/releases", j.release.release,
                        j.profile.reportFilename, j.profile.createdAt, Favicon(j.profile.status),
                        j.profile.status))
  }

  // ---------------------------------------------------------------------
  // Scan lists

  datatype ScanList = ScanList(listType: string, scans: seq<Db.Joined>, uiEndpoint: string)

  /** renderCurrentScans: 500 when the query fails; otherwise the running
      scans, re-sorted newest first, which leaves the query's order as it
      was. */
  function RenderCurrentScans(queryOk: bool, t: Db.Tables, ui: string): (r: Reply<ScanList>)
    ensures r.Status? <==> !queryOk
    ensures r.Status? ==> r.code == 500
    ensures r.Page? ==> r.view.listType == "Running Scans" && r.view.scans == Db.GetRunningScans(t)
    ensures r.Page? ==> Db.NewestFirst(r.view.scans)
    ensures r.Page? ==> forall j :: j in r.view.scans <==>
              j.profile in t.profiles && j.release in t.releases && Db.Matches(j) && Db.Visible(j)
  {
    if !queryOk then Status(500)
    else
      var rows := Db.GetRunningScans(t);
      Db.SortKeepsSorted(rows);
      Page(ScanList("Running Scans", Db.SortNewestFirst(rows), ui))
  }

  /** renderAllScans: 500 when the query fails; otherwise every joined row,
      deleted or not, newest first. */
  function RenderAllScans(queryOk: bool, t: Db.Tables, ui: string): (r: Reply<ScanList>)
    ensures r.Status? <==> !queryOk
    ensures r.Status? ==> r.code == 500
    ensures r.Page? ==> r.view.listType == "All Scans" && r.view.scans == Db.GetAllScans(t)
    ensures r.Page? ==> Db.NewestFirst(r.view.scans)
    ensures r.Page? ==> forall j :: j in r.view.scans <==>
              j.profile in t.profiles && j.release in t.releases && Db.Matches(j)
  {
    if !queryOk then Status(500)
    else
      var rows := Db.GetAllScans(t);
      Db.SortKeepsSorted(rows);
      Page(ScanList("All Scans", Db.SortNewestFirst(rows), ui))
  }

  /** getScans: the running scans as JSON, newest first. */
  function GetScans(queryOk: bool, t: Db.Tables): (r: Reply<seq<Db.Joined>>)
    ensures r.Status? <==> !queryOk
    ensures r.Status? ==> r.code == 500
    ensures r.Json? ==> r.body == Db.GetRunningScans(t) && Db.NewestFirst(r.body)
    ensures r.Json? ==> forall j :: j in r.body <==>
              j.profile in t.profiles && j.release in t.releases && Db.Matches(j) && Db.Visible(j)
  {
    if !queryOk then Status(500)
    else
      var rows := Db.GetRunningScans(t);
      Db.SortKeepsSorted(rows);
      Json(Db.SortNewestFirst(rows))
  }

  /** A freshly provisioned scan is listed as running unless its first
      state, once stored, is one the reconciler no longer works on. */
  lemma ProvisionedScanListed(t: Db.Tables, a: Controller.Accepted, w: Controller.World)
    requires Controller.ScanStarted(w)
    ensures var r := GetScans(true, Controller.ProvisionedState(t, a, w));
            Db.Joined(Controller.ProvisionedProfile(a, w), Controller.ProvisionedRelease(a, w)) in r.body
            <==> !w.statusRow || w.scanStatus.value in Db.WorkingStatuses
  {
    Controller.ProvisionedPending(t, a, w);
  }
}
