/**
 * `GET /api/facebook/pages` (src/app/api/facebook/pages/route.ts): the
 * session check, the two Graph reads, and the mapping of a failure to an HTTP
 * status after it has been handed to the error reporter.
 *
 * The session and the two `fetchFromGraph` results are inputs. A failed read
 * is described by what the route inspects: the thrown value as the error
 * reporter sees it (whose top-level `code` and `type` the route tests), and
 * whether it is an `Error` with a message.
 */
module PagesRoute {
  import opened Common
  import opened JsErrors
  import ErrorReporting

  datatype FacebookUser = FacebookUser(id: string, name: string, email: string)
  datatype FacebookPage = FacebookPage(id: string, name: string, accessToken: string, category: string, tasks: seq<string>)

  /** The session NextAuth returns: none, or one whose `accessToken` may be absent. */
  datatype Session = NoSession | Session(accessToken: Option<string>)

  /** A thrown value as this route and the reporter see it. */
  datatype Failure = Failure(raw: ErrorReporting.RawError, errorMessage: Option<string>)

  /** The result of one abstract `fetchFromGraph` call. */
  datatype GraphRead<T> = ReadFailed(failure: Failure) | Read(value: T)

  /** The `me/accounts` body: its `data` list may be missing. */
  datatype AccountsBody = AccountsBody(data: Option<seq<FacebookPage>>)

  datatype PagesResponse =
    | NotAuthenticated
    | SessionExpired
    | InsufficientPermissions
    | FetchFailed(details: string)
    | PagesData(user: FacebookUser, pages: seq<FacebookPage>)
  {
    function Status(): int {
      match this
      case NotAuthenticated => 401
      case SessionExpired => 401
      case InsufficientPermissions => 403
      case FetchFailed(_) => 500
      case PagesData(_, _) => 200
    }
  }

  /** What the route hands to `reportFacebookError`. */
  datatype FacebookReportCall = FacebookReportCall(raw: ErrorReporting.RawError, context: ErrorReporting.Context)

  datatype PagesOutcome = PagesOutcome(response: PagesResponse, graphCalls: nat, report: Option<FacebookReportCall>)

  /** `accessToken.slice(-8)`. */
  function SessionId(token: string): (id: string)
    ensures |id| == if |token| < 8 then |token| else 8
    ensures forall i :: 0 <= i < |id| ==> id[i] == token[|token| - |id| + i]
  {
    KeepNewest(token, 8)
  }

  /** `fbError?.code` and `fbError?.type`: the top-level fields of an object, nothing for a falsy value. */
  function TopCode(raw: ErrorReporting.RawError): Option<int> {
    if raw.RawObject? then raw.top.code else None
  }

  function TopType(raw: ErrorReporting.RawError): Option<string> {
    if raw.RawObject? then raw.top.errType else None
  }

  /** The catch block's response: 190 first, then 200 or `OAuthException`, otherwise 500. */
  function FailureResponse(f: Failure): (r: PagesResponse)
    ensures r.Status() == 401 <==> TopCode(f.raw) == Some(190)
    ensures r.Status() == 403 <==>
      (TopCode(f.raw) != Some(190) && (TopCode(f.raw) == Some(200) || TopType(f.raw) == Some("OAuthException")))
    ensures r.Status() in {401, 403, 500}
    ensures r.FetchFailed? ==> r.details == f.errorMessage.GetOr("Unknown error")
  {
    if TopCode(f.raw) == Some(190) then SessionExpired
    else if TopCode(f.raw) == Some(200) || TopType(f.raw) == Some("OAuthException") then InsufficientPermissions
    else FetchFailed(f.errorMessage.GetOr("Unknown error"))
  }

  /** The `TypeError` the logging line throws when `pagesData.data` is missing. */
  const MissingDataFailure: Failure :=
    Failure(ErrorReporting.RawObject(ErrorReporting.NoDetails.(message := Some("Cannot read properties of undefined (reading 'length')")), None),
            Some("Cannot read properties of undefined (reading 'length')"))

  /**
   * The failure the catch block handles: the user read's, else the accounts
   * read's, else the `TypeError` of a missing `data` list; none when both
   * reads succeed with page data.
   */
  function FirstFailure(user: GraphRead<FacebookUser>, accounts: GraphRead<AccountsBody>): (f: Option<Failure>)
    ensures f.None? <==> user.Read? && accounts.Read? && accounts.value.data.Some?
    ensures user.ReadFailed? ==> f == Some(user.failure)
    ensures user.Read? && accounts.ReadFailed? ==> f == Some(accounts.failure)
    ensures user.Read? && accounts.Read? && accounts.value.data.None? ==> f == Some(MissingDataFailure)
  {
    if user.ReadFailed? then Some(user.failure)
    else if accounts.ReadFailed? then Some(accounts.failure)
    else if accounts.value.data.None? then Some(MissingDataFailure)
    else None
  }

  /**
   * `GET`. Both reads are issued once the session has a token; when both fail
   * the user read's failure is the one handled.
   */
  function Get(session: Session, user: GraphRead<FacebookUser>, accounts: GraphRead<AccountsBody>): (o: PagesOutcome)
    ensures (session.NoSession? || session.accessToken.None? || session.accessToken.value == "") <==> o.graphCalls == 0
    ensures o.graphCalls == 0 ==> o.response == NotAuthenticated && o.report.None?
    ensures o.graphCalls > 0 ==> o.graphCalls == 2
    ensures o.response.Status() == 200 <==>
      o.graphCalls == 2 && user.Read? && accounts.Read? && accounts.value.data.Some?
    ensures o.response.PagesData? ==> o.response.user == user.value && o.response.pages == accounts.value.data.value
    ensures o.graphCalls == 2 && o.response.Status() != 200 ==>
      o.report.Some? && "sessionId" in o.report.value.context && o.report.value.context["sessionId"] == ErrorReporting.CStr(SessionId(session.accessToken.value))
    ensures o.graphCalls == 2 && o.response.Status() != 200 ==>
      FirstFailure(user, accounts).Some? &&
      o.response == FailureResponse(FirstFailure(user, accounts).value) &&
      o.report.value.raw == FirstFailure(user, accounts).value.raw
    ensures o.response.Status() == 200 ==> o.report.None?
  {
    if session.NoSession? || session.accessToken.None? || session.accessToken.value == "" then
      PagesOutcome(NotAuthenticated, 0, None)
    else
      var token := session.accessToken.value;
      var context := map["context" := ErrorReporting.CStr("fetch_pages"), "sessionId" := ErrorReporting.CStr(SessionId(token))];
      match FirstFailure(user, accounts)
      case Some(f) => PagesOutcome(FailureResponse(f), 2, Some(FacebookReportCall(f.raw, context)))
      case None => PagesOutcome(PagesData(user.value, accounts.value.data.value), 2, None)
  }

  /** An expired token wins over a permission error: code 190 with type `OAuthException` is 401, not 403. */
  lemma ExpiredTokenBeatsOAuthException(top: VendorFields, nested: Option<VendorFields>, message: Option<string>)
    requires top.code == Some(190) && top.errType == Some("OAuthException")
    ensures FailureResponse(Failure(ErrorReporting.RawObject(top, nested), message)) == SessionExpired
  {
  }

  /** A failure whose top-level fields carry neither 190, 200 nor `OAuthException` (a string, say) is a 500. */
  lemma OtherFailuresAreServerErrors(f: Failure)
    requires TopCode(f.raw) != Some(190) && TopCode(f.raw) != Some(200) && TopType(f.raw) != Some("OAuthException")
    ensures FailureResponse(f).Status() == 500
  {
  }

  /**
   * The report the route files keeps the last eight characters of the token as
   * `sessionId`: the reporter's context sanitiser redacts only `accessToken`
   * and `sessionToken`.
   */
  lemma ReportedSessionIdSurvivesSanitising(session: Session, user: GraphRead<FacebookUser>, accounts: GraphRead<AccountsBody>,
                                            timestamp: string, url: string)
    requires Get(session, user, accounts).report.Some?
    ensures var call := Get(session, user, accounts).report.value;
      var stored := ErrorReporting.FacebookReport(call.raw, call.context, timestamp, url);
      "sessionId" in stored.context.value &&
      stored.context.value["sessionId"] == ErrorReporting.CStr(SessionId(session.accessToken.value))
  {
    var token := session.accessToken.value;
    var f := FirstFailure(user, accounts).value;
    var context := map["context" := ErrorReporting.CStr("fetch_pages"), "sessionId" := ErrorReporting.CStr(SessionId(token))];
    assert Get(session, user, accounts).report == Some(FacebookReportCall(f.raw, context));
    var call := FacebookReportCall(f.raw, context);
    var d := ErrorReporting.ExtractFacebookError(call.raw);
    var subcode := if d.subcode.Some? then ErrorReporting.CNum(d.subcode.value) else ErrorReporting.CUndefined;
    var withSubcode := call.context["errorSubcode" := subcode];
    assert "sessionId" !in ErrorReporting.SensitiveKeys;
    assert withSubcode["sessionId"] == call.context["sessionId"];
  }
}
