/**
 * The error reporter of src/utils/error-reporting.ts: token redaction in
 * messages and contexts, normalisation of the shapes a Graph API error comes
 * in, the transient-code and message tables, and the `ErrorReporter` object
 * whose queue keeps the newest 50 reports.
 *
 * The clock (`new Date().toISOString()`), `window.location.href` and whether
 * a `window` exists are inputs; the sink of `flush` is a success flag.
 */
module ErrorReporting {
  import opened Common
  import opened JsErrors
  import Retry
  import ApiClient

  // ---------------------------------------------------------------------------
  // Message redaction: `sanitizeErrorMessage`
  // ---------------------------------------------------------------------------

  const AccessTokenKey: string := "access_token="
  const ParamMarker: string := "?access_token=[REDACTED]"
  const TokenMarker: string := "[REDACTED_TOKEN]"

  /** `/[?&]access_token=[^&]+/` matches at position i (its `[^&]+` part starts at i + 14). */
  predicate ParamMatchAt(s: string, i: nat) {
    i + 14 < |s| && (s[i] == '?' || s[i] == '&') && s[i + 1..i + 14] == AccessTokenKey && s[i + 14] != '&'
  }

  predicate IsAsciiAlnum(c: char) {
    ('a' <= c <= 'z') || ('A' <= c <= 'Z') || ('0' <= c <= '9')
  }

  /** `/EAA[a-zA-Z0-9]+/` matches at position i (its run starts at i + 3). */
  predicate TokenMatchAt(s: string, i: nat) {
    i + 3 < |s| && s[i] == 'E' && s[i + 1] == 'A' && s[i + 2] == 'A' && IsAsciiAlnum(s[i + 3])
  }

  /** The leftmost match of `/[?&]access_token=[^&]+/` at or after `from`. */
  function FirstParamMatch(s: string, from: nat): (r: Option<nat>)
    requires from <= |s|
    ensures r.Some? ==> from <= r.value && ParamMatchAt(s, r.value)
    ensures r.Some? ==> forall j :: from <= j < r.value ==> !ParamMatchAt(s, j)
    ensures r.None? ==> forall j :: from <= j ==> !ParamMatchAt(s, j)
    decreases |s| - from
  {
    if from == |s| then None
    else if ParamMatchAt(s, from) then Some(from)
    else FirstParamMatch(s, from + 1)
  }

  /** The leftmost match of `/EAA[a-zA-Z0-9]+/` at or after `from`. */
  function FirstTokenMatch(s: string, from: nat): (r: Option<nat>)
    requires from <= |s|
    ensures r.Some? ==> from <= r.value && TokenMatchAt(s, r.value)
    ensures r.Some? ==> forall j :: from <= j < r.value ==> !TokenMatchAt(s, j)
    ensures r.None? ==> forall j :: from <= j ==> !TokenMatchAt(s, j)
    decreases |s| - from
  {
    if from == |s| then None
    else if TokenMatchAt(s, from) then Some(from)
    else FirstTokenMatch(s, from + 1)
  }

  /** Where the greedy `[^&]+` that starts at j stops. */
  function AmpersandFreeEnd(s: string, j: nat): (e: nat)
    requires j <= |s|
    ensures j <= e <= |s|
    ensures forall k :: j <= k < e ==> s[k] != '&'
    ensures e == |s| || s[e] == '&'
    decreases |s| - j
  {
    if j == |s| || s[j] == '&' then j else AmpersandFreeEnd(s, j + 1)
  }

  /** Where the greedy `[a-zA-Z0-9]+` that starts at j stops. */
  function AlnumEnd(s: string, j: nat): (e: nat)
    requires j <= |s|
    ensures j <= e <= |s|
    ensures forall k :: j <= k < e ==> IsAsciiAlnum(s[k])
    ensures e == |s| || !IsAsciiAlnum(s[e])
    decreases |s| - j
  {
    if j == |s| || !IsAsciiAlnum(s[j]) then j else AlnumEnd(s, j + 1)
  }

  /**
   * The first `.replace`: the leftmost `?access_token=…` or `&access_token=…`
   * run, up to the next `&`, becomes `?access_token=[REDACTED]`; later runs
   * are left alone.
   */
  function RedactAccessTokenParam(s: string): (r: string)
    ensures (forall i: nat :: !ParamMatchAt(s, i)) ==> r == s
    ensures forall i: nat :: ParamMatchAt(s, i) && (forall j: nat :: j < i ==> !ParamMatchAt(s, j)) ==>
      exists e :: i + 14 < e <= |s| && (e == |s| || s[e] == '&') &&
        (forall k :: i + 14 <= k < e ==> s[k] != '&') &&
        r == s[..i] + ParamMarker + s[e..]
  {
    match FirstParamMatch(s, 0)
    case None => s
    case Some(i) => s[..i] + ParamMarker + s[AmpersandFreeEnd(s, i + 14)..]
  }

  /** The second `.replace`: the leftmost `EAA` followed by a maximal alphanumeric run becomes `[REDACTED_TOKEN]`. */
  function RedactBearerToken(s: string): (r: string)
    ensures (forall i: nat :: !TokenMatchAt(s, i)) ==> r == s
    ensures forall i: nat :: TokenMatchAt(s, i) && (forall j: nat :: j < i ==> !TokenMatchAt(s, j)) ==>
      exists e :: i + 3 < e <= |s| && (e == |s| || !IsAsciiAlnum(s[e])) &&
        (forall k :: i + 3 <= k < e ==> IsAsciiAlnum(s[k])) &&
        r == s[..i] + TokenMarker + s[e..]
  {
    match FirstTokenMatch(s, 0)
    case None => s
    case Some(i) => s[..i] + TokenMarker + s[AlnumEnd(s, i + 3)..]
  }

  /** `sanitizeErrorMessage`. */
  function SanitizeErrorMessage(message: string): (r: string)
    ensures (forall i: nat :: !ParamMatchAt(message, i)) ==> r == RedactBearerToken(message)
    ensures (forall i: nat :: !ParamMatchAt(message, i)) && (forall i: nat :: !TokenMatchAt(message, i)) ==> r == message
  {
    RedactBearerToken(RedactAccessTokenParam(message))
  }

  /** A message with neither a token parameter nor an `EAA…` token comes out unchanged. */
  lemma SanitizeLeavesCleanMessages(message: string)
    requires forall i: nat :: !ParamMatchAt(message, i)
    requires forall i: nat :: !TokenMatchAt(message, i)
    ensures SanitizeErrorMessage(message) == message
  {
  }

  predicate OccursAt(m: string, s: string, k: nat) {
    k + |m| <= |s| && s[k..k + |m|] == m
  }

  /** No `EAA` followed by an alphanumeric character starts inside the parameter marker. */
  lemma ParamMarkerHasNoTokenStart(k: nat)
    requires k + 2 < |ParamMarker| + 1
    ensures k + 2 < |ParamMarker| ==> !(ParamMarker[k + 1] == 'A' && ParamMarker[k + 2] == 'A')
    ensures k + 2 == |ParamMarker| ==> ParamMarker[k + 1] != 'A'
  {
  }

  /** The first replacement leaves the marker in place of the leftmost parameter match. */
  lemma RedactParamPlacesMarker(message: string, i: nat) returns (p: nat)
    requires ParamMatchAt(message, i)
    ensures OccursAt(ParamMarker, RedactAccessTokenParam(message), p)
  {
    p := FirstParamMatch(message, 0).value;
    var t := RedactAccessTokenParam(message);
    var e := AmpersandFreeEnd(message, p + 14);
    assert t == message[..p] + ParamMarker + message[e..];
    assert t[p..p + |ParamMarker|] == ParamMarker;
  }

  /** A bearer-token match that starts before the marker ends before it. */
  lemma TokenBeforeMarker(t: string, p: nat, j: nat)
    requires OccursAt(ParamMarker, t, p) && TokenMatchAt(t, j) && j < p
    ensures AlnumEnd(t, j + 3) <= p
  {
    assert t[p] == ParamMarker[0];
  }

  /** No bearer-token match starts inside the marker. */
  lemma NoTokenInsideMarker(t: string, p: nat, j: nat)
    requires OccursAt(ParamMarker, t, p) && TokenMatchAt(t, j) && p <= j
    ensures p + |ParamMarker| <= j
  {
    if j < p + |ParamMarker| {
      ParamMarkerHasNoTokenStart(j - p);
      assert false;
    }
  }

  /** Splicing `x` over `t[j..f]` keeps an occurrence of `m` that lies wholly after `f`. */
  lemma SpliceKeepsLaterOccurrence(m: string, t: string, p: nat, j: nat, f: nat, x: string)
    requires OccursAt(m, t, p) && j <= f <= p
    ensures OccursAt(m, t[..j] + x + t[f..], j + |x| + (p - f))
  {
    var r := t[..j] + x + t[f..];
    var k := j + |x| + (p - f);
    assert r[k..k + |m|] == t[p..p + |m|];
  }

  /** Splicing `x` over `t[j..f]` keeps an occurrence of `m` that lies wholly before `j`. */
  lemma SpliceKeepsEarlierOccurrence(m: string, t: string, p: nat, j: nat, f: nat, x: string)
    requires OccursAt(m, t, p) && p + |m| <= j <= f <= |t|
    ensures OccursAt(m, t[..j] + x + t[f..], p)
  {
    var r := t[..j] + x + t[f..];
    assert r[p..p + |m|] == t[p..p + |m|];
  }

  /** The bearer-token replacement never reaches into an occurrence of the marker. */
  lemma RedactTokenKeepsMarker(t: string, p: nat) returns (k: nat)
    requires OccursAt(ParamMarker, t, p)
    ensures OccursAt(ParamMarker, RedactBearerToken(t), k)
  {
    match FirstTokenMatch(t, 0)
    case None =>
      k := p;
    case Some(j) =>
      var f := AlnumEnd(t, j + 3);
      assert RedactBearerToken(t) == t[..j] + TokenMarker + t[f..];
      if j < p {
        TokenBeforeMarker(t, p, j);
        SpliceKeepsLaterOccurrence(ParamMarker, t, p, j, f, TokenMarker);
        k := j + |TokenMarker| + (p - f);
      } else {
        NoTokenInsideMarker(t, p, j);
        SpliceKeepsEarlierOccurrence(ParamMarker, t, p, j, f, TokenMarker);
        k := p;
      }
  }

  /**
   * When a message carries an access-token parameter, the sanitised message
   * carries `?access_token=[REDACTED]`: the bearer-token replacement that
   * follows never reaches into it.
   */
  lemma SanitizeKeepsParamMarker(message: string, i: nat)
    requires ParamMatchAt(message, i)
    ensures exists k: nat :: OccursAt(ParamMarker, SanitizeErrorMessage(message), k)
  {
    var p := RedactParamPlacesMarker(message, i);
    var k := RedactTokenKeepsMarker(RedactAccessTokenParam(message), p);
    assert OccursAt(ParamMarker, SanitizeErrorMessage(message), k);
  }

  // ---------------------------------------------------------------------------
  // Error-shape normalisation: `extractFacebookError`
  // ---------------------------------------------------------------------------

  /** A value handed to `reportFacebookError`: falsy, or an object with top-level fields and maybe an `.error` envelope. */
  datatype RawError = Falsy | RawObject(top: VendorFields, nested: Option<VendorFields>)

  predicate TruthyText(t: Option<string>) {
    t.Some? && t.value != ""
  }

  predicate TruthyCode(c: Option<int>) {
    c.Some? && c.value != 0
  }

  const NoDetails: VendorFields := VendorFields(None, None, None, None, None)

  /**
   * `extractFacebookError`: `{}` for a falsy input; the nested envelope when
   * it has a truthy message; the top-level fields when both message and code
   * are truthy; otherwise the top-level code and type with the message
   * defaulting to `Unknown Facebook Error`.
   */
  function ExtractFacebookError(raw: RawError): (d: VendorFields)
    ensures raw.Falsy? ==> d == NoDetails
    ensures raw.RawObject? && raw.nested.Some? && TruthyText(raw.nested.value.message) ==> d == raw.nested.value
    ensures (raw.RawObject? && !(raw.nested.Some? && TruthyText(raw.nested.value.message)) &&
             TruthyText(raw.top.message) && TruthyCode(raw.top.code)) ==> d == raw.top
    ensures raw.RawObject? ==> TruthyText(d.message)
    ensures (raw.RawObject? && !(raw.nested.Some? && TruthyText(raw.nested.value.message)) &&
             !(TruthyText(raw.top.message) && TruthyCode(raw.top.code))) ==>
      d == VendorFields(Some(if TruthyText(raw.top.message) then raw.top.message.value else "Unknown Facebook Error"),
                        raw.top.code, raw.top.errType, None, None)
  {
    match raw
    case Falsy => NoDetails
    case RawObject(top, nested) =>
      if nested.Some? && TruthyText(nested.value.message) then nested.value
      else if TruthyText(top.message) && TruthyCode(top.code) then top
      else VendorFields(Some(if TruthyText(top.message) then top.message.value else "Unknown Facebook Error"),
                        top.code, top.errType, None, None)
  }

  // ---------------------------------------------------------------------------
  // Contexts: `sanitizeContext`
  // ---------------------------------------------------------------------------

  /** A context value, with JavaScript truthiness. */
  datatype CtxValue = CStr(s: string) | CNum(n: int) | CBool(b: bool) | CUndefined | CNull | CObject {
    predicate Truthy() {
      match this
      case CStr(s) => s != ""
      case CNum(n) => n != 0
      case CBool(b) => b
      case CUndefined => false
      case CNull => false
      case CObject => true
    }
  }

  type Context = map<string, CtxValue>

  const SensitiveKeys: set<string> := {"accessToken", "sessionToken"}
  const Redacted: CtxValue := CStr("[REDACTED]")

  /** `sanitizeContext`: a copy in which truthy `accessToken` / `sessionToken` values read `[REDACTED]`. */
  function SanitizeContext(context: Context): (r: Context)
    ensures r.Keys == context.Keys
    ensures forall k :: k in context && k !in SensitiveKeys ==> r[k] == context[k]
    ensures forall k :: k in context && k in SensitiveKeys && context[k].Truthy() ==> r[k] == Redacted
    ensures forall k :: k in context && k in SensitiveKeys && !context[k].Truthy() ==> r[k] == context[k]
  {
    var withAccess := if "accessToken" in context && context["accessToken"].Truthy()
      then context["accessToken" := Redacted] else context;
    if "sessionToken" in withAccess && withAccess["sessionToken"].Truthy()
      then withAccess["sessionToken" := Redacted] else withAccess
  }

  /** No sensitive key keeps a truthy value other than the marker, and sanitising twice changes nothing more. */
  lemma SanitizeContextIsIdempotent(context: Context)
    ensures forall k :: k in SanitizeContext(context) && k in SensitiveKeys && SanitizeContext(context)[k].Truthy() ==>
      SanitizeContext(context)[k] == Redacted
    ensures SanitizeContext(SanitizeContext(context)) == SanitizeContext(context)
  {
    var once := SanitizeContext(context);
    var twice := SanitizeContext(once);
    assert twice.Keys == once.Keys;
    forall k | k in once ensures twice[k] == once[k] {
    }
  }

  // ---------------------------------------------------------------------------
  // Reports
  // ---------------------------------------------------------------------------

  /** One queued `ErrorReport` (the `stack` field is not modelled). */
  datatype ErrorReport = ErrorReport(
    message: string,
    timestamp: string,
    url: string,
    kind: CtxValue,
    context: Option<Context>,
    errorCode: Option<int>,
    errorType: Option<string>,
    traceId: Option<string>)

  /** `error instanceof Error ? error.message : String(error)`. */
  function MessageOf(error: Thrown): string {
    Wrap(error).message
  }

  /** The report `captureError` builds: the message is sanitised, the type is the error's name. */
  function CaptureReport(error: Thrown, timestamp: string, url: string): (r: ErrorReport)
    ensures r.message == SanitizeErrorMessage(MessageOf(error)) && r.context.None?
    ensures r.url == url && r.timestamp == timestamp
    ensures r.kind == CStr(if error.ThrownError? then error.error.name else "Unknown")
  {
    ErrorReport(SanitizeErrorMessage(MessageOf(error)), timestamp, url,
                CStr(if error.ThrownError? then error.error.name else "Unknown"), None, None, None, None)
  }

  /** `context.type || 'unknown'`. */
  function ContextType(context: Context): (t: CtxValue)
    ensures t.Truthy()
  {
    if "type" in context && context["type"].Truthy() then context["type"] else CStr("unknown")
  }

  /** The report `report` builds: the message is stored as it is, only the context is sanitised. */
  function PlainReport(error: Thrown, context: Context, timestamp: string, url: string): (r: ErrorReport)
    ensures r.message == MessageOf(error)
    ensures r.context == Some(SanitizeContext(context)) && r.kind == ContextType(context)
    ensures r.url == url && r.timestamp == timestamp
  {
    ErrorReport(MessageOf(error), timestamp, url, ContextType(context), Some(SanitizeContext(context)), None, None, None)
  }

  /** The report `reportFacebookError` builds from the normalised error. */
  function FacebookReport(raw: RawError, context: Context, timestamp: string, url: string): (r: ErrorReport)
    ensures var d := ExtractFacebookError(raw);
      && r.message == SanitizeErrorMessage(if TruthyText(d.message) then d.message.value else "Facebook API Error")
      && r.kind == CStr("facebook_error")
      && r.errorCode == d.code && r.errorType == d.errType && r.traceId == d.traceId
    ensures r.context.Some? && "errorSubcode" in r.context.value
    ensures r.context.value["errorSubcode"] ==
      (var d := ExtractFacebookError(raw); if d.subcode.Some? then CNum(d.subcode.value) else CUndefined)
    ensures r.context == Some(SanitizeContext(context["errorSubcode" := r.context.value["errorSubcode"]]))
    ensures r.url == url && r.timestamp == timestamp
  {
    var d := ExtractFacebookError(raw);
    var subcode := if d.subcode.Some? then CNum(d.subcode.value) else CUndefined;
    ErrorReport(SanitizeErrorMessage(if TruthyText(d.message) then d.message.value else "Facebook API Error"),
                timestamp, url, CStr("facebook_error"), Some(SanitizeContext(context["errorSubcode" := subcode])),
                d.code, d.errType, d.traceId)
  }

  // ---------------------------------------------------------------------------
  // The bounded queue
  // ---------------------------------------------------------------------------

  const MaxQueueSize: nat := 50

  /** `push` followed by `slice(-maxQueueSize)` when the queue got too long. */
  function Enqueue(queue: seq<ErrorReport>, report: ErrorReport): (q: seq<ErrorReport>)
    ensures |q| <= MaxQueueSize || q == queue + [report]
    ensures |q| > 0 && q[|q| - 1] == report
  {
    KeepNewest(queue + [report], MaxQueueSize)
  }

  function EnqueueAll(queue: seq<ErrorReport>, reports: seq<ErrorReport>): seq<ErrorReport>
    decreases |reports|
  {
    if reports == [] then queue else EnqueueAll(Enqueue(queue, reports[0]), reports[1..])
  }

  /** Starting from a queue within bounds, any run of enqueues leaves the newest 50 reports in arrival order. */
  lemma {:induction false} QueueKeepsNewest(queue: seq<ErrorReport>, reports: seq<ErrorReport>)
    requires |queue| <= MaxQueueSize
    ensures EnqueueAll(queue, reports) == KeepNewest(queue + reports, MaxQueueSize)
    ensures |EnqueueAll(queue, reports)| <= MaxQueueSize
    decreases |reports|
  {
    if reports == [] {
      assert queue + reports == queue;
    } else {
      var q1 := Enqueue(queue, reports[0]);
      QueueKeepsNewest(q1, reports[1..]);
      KeepNewestAbsorbs(queue + [reports[0]], reports[1..], MaxQueueSize);
      assert queue + [reports[0]] + reports[1..] == queue + reports;
    }
  }

  /** The process-wide reporter. */
  class ErrorReporter {
    var queue: seq<ErrorReport>
    var isClient: bool
    var hasInitialized: bool

    ghost predicate Valid()
      reads this
    {
      |queue| <= MaxQueueSize && (isClient <==> hasInitialized)
    }

    /** `new ErrorReporter()`: an empty queue, then `initializeIfClient`. */
    constructor (windowPresent: bool)
      ensures Valid() && queue == []
      ensures isClient == windowPresent && hasInitialized == windowPresent
    {
      queue := [];
      isClient := false;
      hasInitialized := false;
      new;
      InitializeIfClient(windowPresent);
    }

    /** `initializeIfClient`: the first call made with a `window` turns client mode on, once. */
    method InitializeIfClient(windowPresent: bool)
      requires Valid()
      modifies this
      ensures Valid() && queue == old(queue)
      ensures old(hasInitialized) || !windowPresent ==> isClient == old(isClient) && hasInitialized == old(hasInitialized)
      ensures !old(hasInitialized) && windowPresent ==> isClient && hasInitialized
    {
      if hasInitialized || !windowPresent {
        return;
      }
      isClient := true;
      hasInitialized := true;
    }

    function Url(href: string): string
      reads this
    {
      if isClient then href else "server"
    }

    /** `captureError`: initialise if possible, then queue a sanitised report. */
    method CaptureError(error: Thrown, timestamp: string, windowPresent: bool, href: string)
      requires Valid()
      modifies this
      ensures Valid()
      ensures !old(hasInitialized) && windowPresent ==> isClient
      ensures old(hasInitialized) || !windowPresent ==> isClient == old(isClient)
      ensures queue == Enqueue(old(queue), CaptureReport(error, timestamp, if isClient then href else "server"))
    {
      InitializeIfClient(windowPresent);
      var report := CaptureReport(error, timestamp, Url(href));
      queue := queue + [report];
      if |queue| > MaxQueueSize {
        queue := queue[|queue| - MaxQueueSize..];
      }
    }

    /** `queueError`. */
    method QueueError(report: ErrorReport)
      requires Valid()
      modifies this
      ensures Valid() && isClient == old(isClient) && hasInitialized == old(hasInitialized)
      ensures queue == Enqueue(old(queue), report)
    {
      queue := queue + [report];
      if |queue| > MaxQueueSize {
        queue := queue[|queue| - MaxQueueSize..];
      }
    }

    /** `report`: the raw message and the sanitised context. */
    method Report(error: Thrown, context: Context, timestamp: string, href: string)
      requires Valid()
      modifies this
      ensures Valid() && isClient == old(isClient) && hasInitialized == old(hasInitialized)
      ensures queue == Enqueue(old(queue), PlainReport(error, context, timestamp, Url(href)))
    {
      QueueError(PlainReport(error, context, timestamp, Url(href)));
    }

    /** `reportApiError`: `report` with the type `api_error` and the endpoint added to the context. */
    method ReportApiError(error: Thrown, endpoint: string, context: Context, timestamp: string, href: string)
      requires Valid()
      modifies this
      ensures Valid() && isClient == old(isClient) && hasInitialized == old(hasInitialized)
      ensures queue == Enqueue(old(queue), PlainReport(ApiErrorOf(error), ApiErrorContext(error, endpoint, context), timestamp, Url(href)))
    {
      Report(ApiErrorOf(error), ApiErrorContext(error, endpoint, context), timestamp, href);
    }

    /** `reportFacebookError`. */
    method ReportFacebookError(raw: RawError, context: Context, timestamp: string, href: string)
      requires Valid()
      modifies this
      ensures Valid() && isClient == old(isClient) && hasInitialized == old(hasInitialized)
      ensures queue == Enqueue(old(queue), FacebookReport(raw, context, timestamp, Url(href)))
    {
      QueueError(FacebookReport(raw, context, timestamp, Url(href)));
    }

    /**
     * `flush`: nothing happens on an empty queue. Otherwise the queue is
     * emptied before the batch goes to the sink (only in production), and the
     * re-queue on failure re-adds the already emptied queue, so a failed batch
     * is lost. Returns the batch taken and whether the sink received it.
     */
    method Flush(production: bool, sinkFails: bool) returns (batch: seq<ErrorReport>, delivered: bool)
      requires Valid()
      modifies this
      ensures Valid() && isClient == old(isClient) && hasInitialized == old(hasInitialized)
      ensures queue == []
      ensures batch == old(queue)
      ensures delivered <==> |old(queue)| > 0 && production && !sinkFails
    {
      batch := queue;
      delivered := false;
      if |queue| == 0 {
        return;
      }
      queue := [];
      if production {
        if sinkFails {
          queue := queue + queue;
        } else {
          delivered := true;
        }
      }
    }
  }

  /** The error `reportApiError` reports: the error itself, or a new `Error` from a string or a fixed text. */
  function ApiErrorOf(error: Thrown): (e: Thrown)
    ensures e.ThrownError?
    ensures error.ThrownError? ==> e == error
    ensures error.ThrownString? ==> e.error.message == error.text
    ensures error.ThrownOther? ==> e.error.message == "Unknown API error"
  {
    match error
    case ThrownError(_) => error
    case ThrownString(s) => ThrownError(PlainError(s))
    case ThrownOther(_) => ThrownError(PlainError("Unknown API error"))
  }

  /** `{...context, type: 'api_error', endpoint}`, plus `originalError` when the thrown value was not an `Error`. */
  function ApiErrorContext(error: Thrown, endpoint: string, context: Context): (c: Context)
    ensures c.Keys >= context.Keys && "type" in c && "endpoint" in c && c["type"] == CStr("api_error") && c["endpoint"] == CStr(endpoint)
    ensures "originalError" in c && "originalError" !in context ==> !error.ThrownError?
    ensures !error.ThrownError? ==> "originalError" in c
    ensures forall k :: k in context && k != "type" && k != "endpoint" && k != "originalError" ==> c[k] == context[k]
    ensures error.ThrownString? ==> c["originalError"] == CStr(error.text)
    ensures error.ThrownOther? ==> c["originalError"] == CObject
    ensures error.ThrownError? && "originalError" in context ==> c["originalError"] == context["originalError"]
  {
    var base := context["type" := CStr("api_error")]["endpoint" := CStr(endpoint)];
    match error
    case ThrownError(_) => base
    case ThrownString(s) => base["originalError" := CStr(s)]
    case ThrownOther(_) => base["originalError" := CObject]
  }

  // ---------------------------------------------------------------------------
  // Tables
  // ---------------------------------------------------------------------------

  const TransientCodes: seq<int> := [1, 2, 4, 17, 341, 368]

  /** `isFacebookTransientError`. */
  function IsFacebookTransientError(code: int): (transient: bool)
    ensures transient <==> code == 1 || code == 2 || code == 4 || code == 17 || code == 341 || code == 368
  {
    code in TransientCodes
  }

  /**
   * The transient table against the two retry policies: 190 (invalid token)
   * is not transient; none of the codes `shouldRetryFacebookError` refuses is
   * transient; and the codes `fetchWithRetry` retries are exactly the
   * transient ones other than 341 and 368.
   */
  lemma TransientTableAgreesWithRetryPolicies(code: int)
    ensures !IsFacebookTransientError(190) && IsFacebookTransientError(4)
    ensures code in Retry.NonRetryableFbCodes ==> !IsFacebookTransientError(code)
    ensures code in ApiClient.RetryableApiCodes <==> IsFacebookTransientError(code) && code != 341 && code != 368
  {
  }

  const GenericFacebookMessage: string := "An error occurred with Facebook. Please try again."

  const FacebookMessages: map<int, string> := map[
    1 := "Temporary Facebook service error. Please try again.",
    2 := "Facebook service is temporarily unavailable.",
    4 := "Too many requests. Please wait a few minutes and try again.",
    17 := "Request limit reached. Please try again later.",
    190 := "Facebook session expired. Please sign in again.",
    200 := "Permission error. Please check app permissions.",
    341 := "Application limit reached. Please try again later.",
    368 := "Temporary login error. Please try again.",
    803 := "Some permissions were not granted. Please try logging in again."
  ]

  /** `getFacebookErrorMessage`: the table entry, or the generic text; the subcode plays no part. */
  function GetFacebookErrorMessage(code: int, subcode: Option<int>): (m: string)
    ensures code in FacebookMessages ==> m == FacebookMessages[code]
    ensures code !in FacebookMessages ==> m == GenericFacebookMessage
  {
    if code in FacebookMessages && FacebookMessages[code] != "" then FacebookMessages[code] else GenericFacebookMessage
  }

  /** Every listed code gets its own message, every other code the generic one, whatever the subcode. */
  lemma FacebookMessageTable(code: int, subcode: Option<int>)
    ensures code in FacebookMessages ==> GetFacebookErrorMessage(code, subcode) == FacebookMessages[code]
    ensures code !in FacebookMessages ==> GetFacebookErrorMessage(code, subcode) == GenericFacebookMessage
    ensures GetFacebookErrorMessage(code, subcode) == GenericFacebookMessage <==> code !in FacebookMessages
    ensures IsFacebookTransientError(code) ==> code in FacebookMessages
  {
    if code in FacebookMessages {
      assert FacebookMessages[code] != GenericFacebookMessage;
    }
  }
}
