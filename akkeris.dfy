/** The deployment platform's client: the callback URL every link is built
    from, and the requests that create and update a release status. Each
    builder is pure; sending the request is an external call recorded by the
    callers (module Effects). */
module Akkeris {
  import opened Util

  const DefaultCallbackUrl := "http://localhost:9000"
  const StatusContext := "security/detectify"
  const StatusName := "Detectify"
  const JsonContentType := "application/json"
  const SuccessImage := "success_sm.png"
  const FailureImage := "failure_sm.png"
  const PendingImage := "pending_sm.png"

  /** The characters a regular-expression `.` does not match. */
  predicate IsLineTerminator(c: char) {
    c == '\n' || c == '\r' || c == '\U{2028}' || c == '\U{2029}'
  }

  predicate OneLine(s: string) {
    forall i :: 0 <= i < |s| ==> !IsLineTerminator(s[i])
  }

  /** The pattern `^https?://.+$`: an http or https scheme followed by at
      least one character, and no line break anywhere after the scheme. */
  predicate HasHttpScheme(s: string) {
    || (StartsWith(s, "http://") && |s| > 7 && OneLine(s[7..]))
    || (StartsWith(s, "https://") && |s| > 8 && OneLine(s[8..]))
  }

  /** CALLBACK_URL as computed from its environment setting. */
  function CallbackUrl(setting: Option<string>): (url: string)
    ensures !Truthy(setting) ==> url == DefaultCallbackUrl
    ensures Truthy(setting) ==> EndsWith(url, setting.value)
    ensures Truthy(setting) ==> (url == setting.value <==> HasHttpScheme(setting.value))
    ensures Truthy(setting) && !HasHttpScheme(setting.value) ==> url == "https://" + setting.value
    ensures (Truthy(setting) ==> OneLine(setting.value)) ==> HasHttpScheme(url)
  {
    if !Truthy(setting) then DefaultCallbackUrl
    else if HasHttpScheme(setting.value) then setting.value
    else
      var url := "https://" + setting.value;
      assert url[8..] == setting.value;
      assert url[..8] == "https://";
      url
  }

  /** Normalising an already normalised callback URL changes nothing. */
  lemma CallbackUrlIdempotent(setting: Option<string>)
    requires Truthy(setting) ==> OneLine(setting.value)
    ensures CallbackUrl(Some(CallbackUrl(setting))) == CallbackUrl(setting)
  {
    var url := CallbackUrl(setting);
    assert HasHttpScheme(url);
    assert Truthy(Some(url));
  }

  datatype Verb = Get | Post | Patch

  /** A release-status document; `None` marks a field left undefined, which
      the JSON encoding omits. */
  datatype StatusBody = StatusBody(
    state: string,
    context: Option<string>,
    name: string,
    description: string,
    imageUrl: Option<string>,
    targetUrl: Option<string>)

  datatype Request = Request(
    verb: Verb,
    url: string,
    authorization: string,
    contentType: Option<string>,
    body: Option<StatusBody>)

  /** The Authorization header value for a platform token. */
  function Authorization(token: string): (header: string)
    ensures StartsWith(header, "Bearer ")
    ensures header[|"Bearer "|..] == token
  {
    var header := "Bearer " + token;
    assert header[..7] == "Bearer ";
    header
  }

  function StatusesUrl(api: string, app: string, releaseId: string): string {
    api + "/apps/" + app + "/releases/" + releaseId + "/statuses"
  }

  function GetAppDetails(api: string, token: string, app: string): (r: Request)
    ensures r.verb == Get && r.url == api + "/apps/" + app
    ensures r.authorization == Authorization(token)
    ensures r.body.None? && r.contentType.None?
  {
    Request(Get, api + "/apps/" + app, Authorization(token), None, None)
  }

  /** POST of a new release status. The image is set only for `pending`. */
  function CreateReleaseStatus(api: string, callback: string, token: string, app: string,
                               releaseId: string, state: string, description: string): (r: Request)
    ensures r.verb == Post && r.url == StatusesUrl(api, app, releaseId)
    ensures r.authorization == Authorization(token) && r.contentType == Some(JsonContentType)
    ensures r.body.Some? && r.body.value.state == state && r.body.value.description == description
    ensures r.body.value.context == Some(StatusContext) && r.body.value.name == StatusName
    ensures r.body.value.imageUrl.Some? <==> state == "pending"
    ensures r.body.value.imageUrl.Some? ==> r.body.value.imageUrl.value == callback + "/" + PendingImage
    ensures r.body.value.targetUrl.None?
  {
    var image := if state == "pending" then Some(callback + "/" + PendingImage) else None;
    Request(Post, StatusesUrl(api, app, releaseId), Authorization(token), Some(JsonContentType),
            Some(StatusBody(state, Some(StatusContext), StatusName, description, image, None)))
  }

  /** The image shown for a release-status state: only `success` and
      `failure` have their own; every other state shows the pending image. */
  function ImageFor(state: string): (image: string)
    ensures image == SuccessImage <==> state == "success"
    ensures image == FailureImage <==> state == "failure"
    ensures image == PendingImage <==> state != "success" && state != "failure"
  {
    if state == "success" then SuccessImage
    else if state == "failure" then FailureImage
    else PendingImage
  }

  /** PATCH of an existing release status; an empty or missing target URL is
      left out of the document. */
  function UpdateReleaseStatus(api: string, callback: string, token: string, app: string,
                               releaseId: string, statusId: string, state: string,
                               description: string, targetUrl: Option<string>): (r: Request)
    ensures r.verb == Patch && r.url == StatusesUrl(api, app, releaseId) + "/" + statusId
    ensures r.authorization == Authorization(token) && r.contentType == Some(JsonContentType)
    ensures r.body.Some? && r.body.value.state == state && r.body.value.description == description
    ensures r.body.value.context.None? && r.body.value.name == StatusName
    ensures r.body.value.imageUrl == Some(callback + "/" + ImageFor(state))
    ensures r.body.value.targetUrl.Some? <==> Truthy(targetUrl)
    ensures r.body.value.targetUrl.Some? ==> r.body.value.targetUrl == targetUrl
  {
    var target := if Truthy(targetUrl) then targetUrl else None;
    Request(Patch, StatusesUrl(api, app, releaseId) + "/" + statusId, Authorization(token),
            Some(JsonContentType),
            Some(StatusBody(state, None, StatusName, description, Some(callback + "/" + ImageFor(state)), target)))
  }

  /** PATCH that turns a release status into an error pointing at the
      error-details page of `errorId`. */
  function UpdateReleaseStatusWithError(api: string, callback: string, token: string, app: string,
                                        releaseId: string, statusId: string, errorId: string,
                                        errorType: string): (r: Request)
    ensures r.verb == Patch && r.url == StatusesUrl(api, app, releaseId) + "/" + statusId
    ensures r.authorization == Authorization(token) && r.contentType == Some(JsonContentType)
    ensures r.body.Some? && r.body.value.state == "error" && r.body.value.name == StatusName
    ensures r.body.value.description == "Scan failed - " + errorType
    ensures r.body.value.targetUrl == Some(ErrorPageUrl(callback, errorId))
    ensures r.body.value.imageUrl == Some(callback + "/" + FailureImage)
    ensures r.body.value.context.None?
  {
    Request(Patch, StatusesUrl(api, app, releaseId) + "/" + statusId, Authorization(token),
            Some(JsonContentType),
            Some(StatusBody("error", None, StatusName, "Scan failed - " + errorType,
                            Some(callback + "/" + FailureImage), Some(ErrorPageUrl(callback, errorId)))))
  }

  function ErrorPageUrl(callback: string, errorId: string): string {
    callback + "/errors/" + errorId
  }

  /** The error link names its error: the id is what follows the fixed
      `/errors/` path under the callback URL, so distinct errors get distinct
      links. */
  lemma ErrorLinkIdentifiesError(callback: string, id1: string, id2: string)
    ensures ErrorPageUrl(callback, id1)[|callback + "/errors/"|..] == id1
    ensures ErrorPageUrl(callback, id1) == ErrorPageUrl(callback, id2) <==> id1 == id2
  {
    var prefix := callback + "/errors/";
    assert ErrorPageUrl(callback, id1) == prefix + id1;
    assert ErrorPageUrl(callback, id2) == prefix + id2;
    assert (prefix + id1)[|prefix|..] == id1;
    assert (prefix + id2)[|prefix|..] == id2;
  }

  /** The error status shows the same image a `failure` update would, while
      the `fail` verdict the reconciler sends shows the pending image. */
  lemma VerdictImages(api: string, callback: string, token: string, app: string,
                      releaseId: string, statusId: string, errorId: string, errorType: string)
    ensures UpdateReleaseStatusWithError(api, callback, token, app, releaseId, statusId, errorId, errorType).body.value.imageUrl
         == UpdateReleaseStatus(api, callback, token, app, releaseId, statusId, "failure", "", None).body.value.imageUrl
    ensures ImageFor("fail") == PendingImage && ImageFor("success") == SuccessImage
  {
  }
}
