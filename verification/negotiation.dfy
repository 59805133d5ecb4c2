/**
  The accessibility negotiation of `getData`, with the network as an input.

  One call either uses the probe service (once per resource), or answers 200
  without any request when the resource has neither an info document nor
  access control, or fetches the locator with HEAD (no info document) or GET
  (info document).  The outcome becomes a status: 200, 302 for a degraded or
  relocated resource, or the failed request's status.  The call returns the
  new resource state, how the returned promise settles, and the requests it
  issued.
*/
module Negotiation {
  import opened Wrappers
  import opened Iiif
  import opened Locator
  import opened Auth

  const OK := 200
  const MOVED_TEMPORARILY := 302

  const NoDataUriMessage := "There is no dataUri to fetch"

  datatype Verb = GET | HEAD

  /** A JSON request: its URL, its method and its `Authorization` header. */
  datatype Request = Request(url: Option<string>, verb: Verb, authorization: Option<string>)

  /** What the transport answers: success with a body that may be empty, or failure with a status and a JSON body. */
  datatype Response = Done(body: Option<Json>) | Failed(status: int, responseJson: Option<Json>)

  /** The state of the returned promise; the first settlement wins. */
  datatype Settlement = Pending | Resolved | Rejected(reason: string)

  /** The fields of an external resource that `getData` reads or writes. */
  datatype ResourceState = ResourceState(
    dataUri: Option<string>,
    authApiVersion: real,
    auth: AuthServices,
    isProbed: bool,
    status: Option<int>,
    data: Option<Json>,
    error: Option<Response>)

  datatype Outcome = Outcome(state: ResourceState, settlement: Settlement, requests: seq<Request>)

  /** The inputs of one `getData` call: the access token and the world it talks to. */
  datatype Call = Call(accessToken: Option<string>, network: Request -> Response, unescape: string -> string)

  /** A locator JavaScript counts as missing: null or empty. */
  predicate NoLocator(dataUri: Option<string>) {
    dataUri.None? || dataUri.value == ""
  }

  /** The probe path is taken when a probe service is known and has not been used. */
  predicate UsesProbe(s: ResourceState) {
    s.auth.probe.Some? && !s.isProbed
  }

  /** The direct fetch is skipped when there is neither an info document nor access control. */
  predicate ShortCircuits(s: ResourceState) {
    !UsesProbe(s) && !HasServiceDescriptor(s.dataUri) && !AccessControlled(s.auth)
  }

  function Settle(current: Settlement, next: Settlement): Settlement {
    if current.Pending? then next else current
  }

  /** The URI with a trailing `/info.json` removed. */
  function StripInfoJson(uri: string): (r: string)
    ensures EndsWith(uri, "/info.json") ==> uri == r + "/info.json"
    ensures !EndsWith(uri, "/info.json") ==> r == uri
  {
    if EndsWith(uri, "/info.json") then uri[..|uri| - 10] else uri
  }

  function BearerHeader(accessToken: Option<string>): Option<string> {
    if accessToken.Some? then Some("Bearer " + accessToken.value) else None
  }

  function ProbeRequest(s: ResourceState): Request
    requires s.auth.probe.Some?
  {
    Request(Some(s.auth.probe.value.id), GET, None)
  }

  function FetchRequest(s: ResourceState, accessToken: Option<string>): Request {
    Request(s.dataUri, if HasServiceDescriptor(s.dataUri) then GET else HEAD, BearerHeader(accessToken))
  }

  /** The status the probe path derives from a probe answer with a body. */
  function ProbeStatus(s: ResourceState, body: Json, unescape: string -> string): int {
    if Some(unescape(JsText(body.contentLocation))) != s.dataUri then MOVED_TEMPORARILY else OK
  }

  /** The status the fetch path derives from an info document, after the auth re-parse `auth`. */
  function FetchStatus(s: ResourceState, body: Json, auth: AuthServices, unescape: string -> string): int {
    var uri := StripInfoJson(unescape(JsText(body.id)));
    var dataUri := if s.dataUri.Some? then Some(StripInfoJson(s.dataUri.value)) else None;
    if Some(uri) != dataUri && auth.login.Some? then MOVED_TEMPORARILY else OK
  }

  /** The probe path: mark the resource probed, ask the probe service, and judge its answer. */
  function ProbeStep(s: ResourceState, call: Call, settlement: Settlement): (o: Outcome)
    requires s.auth.probe.Some?
    ensures o.requests == [ProbeRequest(s)]
    ensures o.state.isProbed && o.state.auth == s.auth && o.state.data == s.data && o.state.dataUri == s.dataUri
    ensures o.settlement == (if call.network(ProbeRequest(s)) == Done(None) then settlement
                             else Settle(settlement, Resolved))
  {
    var s := s.(isProbed := true);
    var request := ProbeRequest(s);
    match call.network(request)
    case Done(None) =>
      // reading `contentLocation` of a missing body throws inside the callback
      Outcome(s, settlement, [request])
    case Done(Some(body)) =>
      Outcome(s.(status := Some(ProbeStatus(s, body, call.unescape))), Settle(settlement, Resolved), [request])
    case Failed(code, _) =>
      Outcome(s.(status := Some(code), error := Some(call.network(request))), Settle(settlement, Resolved), [request])
  }

  /** The state after a failed request: its status and the error, and services re-parsed from an error body. */
  function AfterFailure(s: ResourceState, failure: Response): (r: ResourceState)
    requires failure.Failed?
    ensures r.status == Some(failure.status) && r.error == Some(failure)
    ensures r.data == s.data && r.dataUri == s.dataUri && r.isProbed == s.isProbed
    ensures failure.responseJson.None? ==> r.auth == s.auth
  {
    var auth := if failure.responseJson.Some? then ParseAuth(s.authApiVersion, JsonSource(failure.responseJson.value), s.auth)
                else s.auth;
    s.(status := Some(failure.status), error := Some(failure), auth := auth)
  }

  /** The state after an info document came back: the body stored, services re-parsed from it, and the status. */
  function AfterInfoDocument(s: ResourceState, body: Json, unescape: string -> string): (r: ResourceState)
    ensures r.data == Some(body) && r.error == s.error && r.dataUri == s.dataUri && r.isProbed == s.isProbed
    ensures r.status == Some(OK) || (r.status == Some(MOVED_TEMPORARILY) && r.auth.login.Some?)
  {
    var auth := ParseAuth(s.authApiVersion, JsonSource(body), s.auth);
    s.(data := Some(body), auth := auth, status := Some(FetchStatus(s, body, auth, unescape)))
  }

  /** The fetch path, once it is known that a request is needed: fetch the locator and judge the answer. */
  function FetchStep(s: ResourceState, call: Call, settlement: Settlement): (o: Outcome)
    ensures o.requests == [FetchRequest(s, call.accessToken)]
    ensures o.settlement == Settle(settlement, Resolved) && o.state.status.Some?
    ensures o.state.dataUri == s.dataUri && o.state.isProbed == s.isProbed
  {
    var request := FetchRequest(s, call.accessToken);
    var answer := call.network(request);
    var state := match answer
      case Done(None) => s.(status := Some(OK))
      case Done(Some(body)) => AfterInfoDocument(s, body, call.unescape)
      case Failed(_, _) => AfterFailure(s, answer);
    Outcome(state, Settle(settlement, Resolved), [request])
  }

  /** One `getData` call. */
  function Resolve(s0: ResourceState, call: Call): (o: Outcome)
    ensures |o.requests| <= 1
    ensures o.state.data.Some? && o.state.dataUri == s0.dataUri && o.state.authApiVersion == s0.authApiVersion
  {
    var settlement := if NoLocator(s0.dataUri) then Rejected(NoDataUriMessage) else Pending;
    var s := s0.(data := Some(EmptyObject));
    if UsesProbe(s) then
      ProbeStep(s, call, settlement)
    else if !HasServiceDescriptor(s.dataUri) && !AccessControlled(s.auth) then
      Outcome(s.(status := Some(OK)), Settle(settlement, Resolved), [])
    else
      FetchStep(s, call, settlement)
  }

  /**
    Exactly one of three things happens: the probe request, no request at all
    (the short circuit, answering 200), or one request for the locator with GET
    when it names an info document and HEAD otherwise.
  */
  lemma RequestsIssued(s: ResourceState, call: Call)
    ensures var o := Resolve(s, call);
            && (UsesProbe(s) ==> o.requests == [ProbeRequest(s)])
            && (ShortCircuits(s) ==> o.requests == [] && o.state.status == Some(OK))
            && (!UsesProbe(s) && !ShortCircuits(s) ==> o.requests == [FetchRequest(s, call.accessToken)])
    ensures Resolve(s, call).requests == [] <==> ShortCircuits(s)
  {
  }

  /** The locator and the API version never change, and `isProbed` only ever goes from false to true. */
  lemma ResolveKeeps(s: ResourceState, call: Call)
    ensures var o := Resolve(s, call);
            && o.state.dataUri == s.dataUri
            && o.state.authApiVersion == s.authApiVersion
            && o.state.isProbed == (s.isProbed || UsesProbe(s))
  {
  }

  /**
    Probe path: a probe answer with a body gives 200 exactly when its unescaped
    `contentLocation` is the locator, else 302; a failure stores the error and
    its status and leaves the services alone.
  */
  lemma ProbeOutcome(s: ResourceState, call: Call)
    requires UsesProbe(s)
    ensures var o := Resolve(s, call);
            var answer := call.network(ProbeRequest(s));
            && (answer.Done? && answer.body.Some? ==>
                  o.state.status.Some? &&
                  (o.state.status.value == OK <==>
                     Some(call.unescape(JsText(answer.body.value.contentLocation))) == s.dataUri) &&
                  (o.state.status.value != OK ==> o.state.status.value == MOVED_TEMPORARILY))
            && (answer.Failed? ==>
                  o.state.status == Some(answer.status) && o.state.error == Some(answer))
            && o.state.auth == s.auth
  {
  }

  /**
    Fetch path with an info document: the services are re-parsed from it, and
    the status is 302 exactly when the document's id and the locator differ
    once a trailing `/info.json` is removed from both and a login service is
    then known; otherwise 200.  An empty answer gives 200.
  */
  lemma FetchOutcome(s: ResourceState, call: Call)
    requires !UsesProbe(s) && !ShortCircuits(s)
    ensures var o := Resolve(s, call);
            var answer := call.network(FetchRequest(s, call.accessToken));
            && (answer == Done(None) ==> o.state.status == Some(OK) && o.state.auth == s.auth)
            && (answer.Done? && answer.body.Some? ==>
                  var body := answer.body.value;
                  var uri := StripInfoJson(call.unescape(JsText(body.id)));
                  && o.state.auth == ParseAuth(s.authApiVersion, JsonSource(body), s.auth)
                  && o.state.data == Some(body)
                  && o.state.status.Some?
                  && (o.state.status.value == MOVED_TEMPORARILY <==>
                        (s.dataUri.None? || uri != StripInfoJson(s.dataUri.value)) && o.state.auth.login.Some?)
                  && (o.state.status.value != MOVED_TEMPORARILY ==> o.state.status.value == OK))
  {
  }

  /**
    Fetch path failure: the status is the failure's, the error is stored, and
    the services are re-parsed from the error body exactly when it has one.
  */
  lemma FetchFailure(s: ResourceState, call: Call)
    requires !UsesProbe(s) && !ShortCircuits(s)
    requires call.network(FetchRequest(s, call.accessToken)).Failed?
    ensures var o := Resolve(s, call);
            var answer := call.network(FetchRequest(s, call.accessToken));
            && o.state.status == Some(answer.status)
            && o.state.error == Some(answer)
            && o.state.auth == (if answer.responseJson.Some?
                                then ParseAuth(s.authApiVersion, JsonSource(answer.responseJson.value), s.auth)
                                else s.auth)
  {
  }

  /**
    The promise is rejected exactly when the locator is missing; otherwise it
    resolves, except when a probe answer carries no body.  Rejection does not
    stop the call: without access control the status still becomes 200.
  */
  lemma SettlementOfResolve(s: ResourceState, call: Call)
    ensures Resolve(s, call).settlement.Rejected? <==> NoLocator(s.dataUri)
    ensures Resolve(s, call).settlement.Pending? <==>
            !NoLocator(s.dataUri) && UsesProbe(s) && call.network(ProbeRequest(s)) == Done(None)
    ensures Resolve(s, call).settlement.Resolved? ==> Resolve(s, call).state.status.Some?
    ensures NoLocator(s.dataUri) && ShortCircuits(s) ==> Resolve(s, call).state.status == Some(OK)
  {
  }

  /**
    A missing locator rejects the promise but does not stop the call: a
    resource that is access-controlled and not on the probe path still sends
    its request, with no URL.
  */
  lemma MissingLocatorStillFetches(s: ResourceState, call: Call)
    requires s.dataUri.None? && !UsesProbe(s) && AccessControlled(s.auth)
    ensures Resolve(s, call).settlement == Rejected(NoDataUriMessage)
    ensures Resolve(s, call).requests == [Request(None, HEAD, BearerHeader(call.accessToken))]
  {
  }

  /** The number of calls in `calls`, made one after another from `s`, that take the probe path. */
  function ProbeCount(s: ResourceState, calls: seq<Call>): nat
    decreases |calls|
  {
    if calls == [] then 0
    else (if UsesProbe(s) then 1 else 0) + ProbeCount(Resolve(s, calls[0]).state, calls[1..])
  }

  /** Once probed, a resource never takes the probe path again. */
  lemma {:induction false} NoProbeAfterProbed(s: ResourceState, calls: seq<Call>)
    requires s.isProbed
    ensures ProbeCount(s, calls) == 0
    decreases |calls|
  {
    if calls != [] {
      ResolveKeeps(s, calls[0]);
      NoProbeAfterProbed(Resolve(s, calls[0]).state, calls[1..]);
    }
  }

  /** However many times `getData` is called, the probe service is requested at most once. */
  lemma {:induction false} ProbeAtMostOnce(s: ResourceState, calls: seq<Call>)
    ensures ProbeCount(s, calls) <= 1
    decreases |calls|
  {
    if calls != [] {
      var next := Resolve(s, calls[0]).state;
      ResolveKeeps(s, calls[0]);
      if UsesProbe(s) {
        NoProbeAfterProbed(next, calls[1..]);
      } else {
        ProbeAtMostOnce(next, calls[1..]);
      }
    }
  }
}
