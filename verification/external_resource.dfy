/**
  The external resource of one canvas: its locator, its auth services, its
  dimensions, and the fields the accessibility negotiation updates in place.
*/
module ExternalResources {
  import opened Wrappers
  import opened Iiif
  import opened Locator
  import opened Auth
  import opened Negotiation

  datatype ExternalResourceOptions = ExternalResourceOptions(authApiVersion: real)

  class ExternalResource {
    var authApiVersion: real
    var clickThroughService: Option<Service>
    var data: Option<Json>
    var dataUri: Option<string>
    var error: Option<Response>
    var externalService: Option<Service>
    var height: Option<int>
    var index: int
    var isProbed: bool
    var kioskService: Option<Service>
    var loginService: Option<Service>
    var logoutService: Option<Service>
    var probeService: Option<Service>
    var restrictedService: Option<Service>
    var status: Option<int>
    var tokenService: Option<Service>
    var width: Option<int>

    /** The service fields as one bundle. */
    function Auth(): AuthServices
      reads this
    {
      AuthServices(clickThroughService, loginService, externalService, kioskService,
                   logoutService, tokenService, probeService, restrictedService)
    }

    /** The fields `getData` reads or writes, as one value. */
    function State(): ResourceState
      reads this
    {
      ResourceState(dataUri, authApiVersion, Auth(), isProbed, status, data, error)
    }

    constructor (canvas: Canvas, options: ExternalResourceOptions)
      ensures dataUri == DataUri(canvas)
      ensures index == canvas.index
      ensures authApiVersion == options.authApiVersion
      ensures Auth() == ParseAuth(options.authApiVersion, CanvasSource(canvas), NoAuthServices)
      ensures !isProbed && status == None && data == None && error == None
      ensures |canvas.images| > 0 ==>
                width == Some(canvas.images[0].resource.width) && height == Some(canvas.images[0].resource.height)
      ensures |canvas.images| == 0 && |canvas.content| > 0 && |canvas.content[0].body| > 0 ==>
                width == Some(canvas.content[0].body[0].width) && height == Some(canvas.content[0].body[0].height)
      ensures |canvas.images| == 0 && (|canvas.content| == 0 || |canvas.content[0].body| == 0) ==>
                width == None && height == None
    {
      data, error, status, isProbed := None, None, None, false;
      width, height := None, None;
      dataUri := DataUri(canvas);
      index := canvas.index;
      authApiVersion := options.authApiVersion;
      // `_parseAuthServices(canvas)` on a fresh resource, whose service fields all start null
      var a := ParseAuth(options.authApiVersion, CanvasSource(canvas), NoAuthServices);
      clickThroughService, loginService, externalService, kioskService := a.clickThrough, a.login, a.external, a.kiosk;
      logoutService, tokenService, probeService, restrictedService := a.logout, a.token, a.probe, a.restricted;
      new;
      ParseDimensions(canvas);
    }

    /** `_parseAuthServices`: refills the service fields from `resource`. */
    method ParseAuthServices(resource: AuthSource)
      modifies this`clickThroughService, this`loginService, this`externalService, this`kioskService
      modifies this`logoutService, this`tokenService, this`probeService, this`restrictedService
      ensures Auth() == ParseAuth(authApiVersion, resource, old(Auth()))
    {
      if authApiVersion == Auth09 {
        ParseAuthServices09(SourceServices(resource));
      } else {
        // a canvas is narrowed to the first body of its first annotation
        var services := SourceServices(resource);
        if resource.CanvasSource? {
          var content := resource.canvas.content;
          if |content| > 0 {
            var body := content[0].body;
            if |body| > 0 {
              services := body[0].services;
            }
          }
        }
        ParseAuthServices1(services);
      }
    }

    /** The Authentication API 0.9 branch of `_parseAuthServices`. */
    method ParseAuthServices09(services: seq<Service>)
      modifies this`clickThroughService, this`loginService, this`restrictedService
      modifies this`logoutService, this`tokenService
      ensures Auth() == ParseAuth09(services, old(Auth()))
    {
      clickThroughService := Lookup(services, ClickThrough0);
      loginService := Lookup(services, Login0);
      restrictedService := Lookup(services, Restricted0);
      if clickThroughService.Some? {
        logoutService := SubService(clickThroughService.value, Logout0);
        tokenService := SubService(clickThroughService.value, Token0);
      } else if loginService.Some? {
        logoutService := SubService(loginService.value, Logout0);
        tokenService := SubService(loginService.value, Token0);
      } else if restrictedService.Some? {
        logoutService := SubService(restrictedService.value, Logout0);
        tokenService := SubService(restrictedService.value, Token0);
      }
    }

    /** The Authentication API 1.0 branch of `_parseAuthServices`, after narrowing. */
    method ParseAuthServices1(services: seq<Service>)
      modifies this`clickThroughService, this`loginService, this`externalService, this`kioskService
      modifies this`logoutService, this`tokenService, this`probeService
      ensures Auth() == ParseAuth1(services, old(Auth()))
    {
      clickThroughService := Lookup(services, ClickThrough1);
      loginService := Lookup(services, Login1);
      externalService := Lookup(services, External1);
      kioskService := Lookup(services, Kiosk1);
      if clickThroughService.Some? {
        logoutService := SubService(clickThroughService.value, Logout1);
        tokenService := SubService(clickThroughService.value, Token1);
        probeService := SubService(clickThroughService.value, Probe1);
      } else if loginService.Some? {
        logoutService := SubService(loginService.value, Logout1);
        tokenService := SubService(loginService.value, Token1);
        probeService := SubService(loginService.value, Probe1);
      } else if externalService.Some? {
        logoutService := SubService(externalService.value, Logout1);
        tokenService := SubService(externalService.value, Token1);
        probeService := SubService(externalService.value, Probe1);
      } else if kioskService.Some? {
        logoutService := SubService(kioskService.value, Logout1);
        tokenService := SubService(kioskService.value, Token1);
        probeService := SubService(kioskService.value, Probe1);
      }
    }

    /**
      `_parseDimensions`: the size of the first image's resource, else of the
      first content body; unchanged when there is neither.
    */
    method ParseDimensions(canvas: Canvas)
      modifies this`width, this`height
      ensures |canvas.images| > 0 ==>
                width == Some(canvas.images[0].resource.width) && height == Some(canvas.images[0].resource.height)
      ensures |canvas.images| == 0 && |canvas.content| > 0 && |canvas.content[0].body| > 0 ==>
                width == Some(canvas.content[0].body[0].width) && height == Some(canvas.content[0].body[0].height)
      ensures |canvas.images| == 0 && (|canvas.content| == 0 || |canvas.content[0].body| == 0) ==>
                width == old(width) && height == old(height)
    {
      if |canvas.images| > 0 {
        var resource := canvas.images[0].resource;
        width := Some(resource.width);
        height := Some(resource.height);
      } else {
        var content := canvas.content;
        if |content| > 0 {
          var body := content[0].body;
          if |body| > 0 {
            width := Some(body[0].width);
            height := Some(body[0].height);
          }
        }
      }
    }

    /** `isAccessControlled`. */
    function IsAccessControlled(): (r: bool)
      reads this
      ensures r == AccessControlled(Auth())
    {
      clickThroughService.Some? || loginService.Some? || externalService.Some? ||
      kioskService.Some? || probeService.Some?
    }

    /** `hasServiceDescriptor`. */
    function HasDescriptor(): (r: bool)
      reads this
      ensures r == HasServiceDescriptor(dataUri)
    {
      if dataUri.Some? then EndsWith(dataUri.value, InfoJson) else false
    }

    /**
      `getData`, with the transport, `unescape` and the access token as inputs:
      the new fields, the settlement and the requests issued are those of one
      `Resolve` step.
    */
    method GetData(accessToken: Option<string>, network: Request -> Response, unescape: string -> string)
      returns (settlement: Settlement, requests: seq<Request>)
      modifies this`data, this`isProbed, this`status, this`error
      modifies this`clickThroughService, this`loginService, this`externalService, this`kioskService
      modifies this`logoutService, this`tokenService, this`probeService, this`restrictedService
      ensures var o := Resolve(old(State()), Call(accessToken, network, unescape));
              State() == o.state && settlement == o.settlement && requests == o.requests
    {
      data := Some(EmptyObject);
      settlement := Pending;
      if dataUri.None? || dataUri.value == "" {
        // the rejection does not stop the call
        settlement := Rejected(NoDataUriMessage);
      }
      if probeService.Some? && !isProbed {
        settlement, requests := UseProbe(network, unescape, settlement);
      } else {
        var verb := GET;
        if !HasDescriptor() {
          if !IsAccessControlled() {
            status := Some(OK);
            settlement, requests := Settle(settlement, Resolved), [];
            return;
          }
          verb := HEAD;
        }
        settlement, requests := Fetch(verb, accessToken, network, unescape, settlement);
      }
    }

    /** The probe path of `getData`. */
    method UseProbe(network: Request -> Response, unescape: string -> string, settlement0: Settlement)
      returns (settlement: Settlement, requests: seq<Request>)
      requires probeService.Some?
      modifies this`isProbed, this`status, this`error
      ensures var o := ProbeStep(old(State()), Call(None, network, unescape), settlement0);
              State() == o.state && settlement == o.settlement && requests == o.requests
    {
      settlement := settlement0;
      isProbed := true;
      var request := Request(Some(probeService.value.id), GET, None);
      requests := [request];
      var response := network(request);
      match response {
        case Done(None) =>
        case Done(Some(body)) =>
          var contentLocation := unescape(JsText(body.contentLocation));
          if Some(contentLocation) != dataUri {
            status := Some(MOVED_TEMPORARILY);
          } else {
            status := Some(OK);
          }
          settlement := Settle(settlement, Resolved);
        case Failed(code, _) =>
          status := Some(code);
          error := Some(response);
          settlement := Settle(settlement, Resolved);
      }
    }

    /** The request of `getData` for the locator itself, with the verb already chosen. */
    method Fetch(verb: Verb, accessToken: Option<string>, network: Request -> Response, unescape: string -> string,
                 settlement0: Settlement)
      returns (settlement: Settlement, requests: seq<Request>)
      requires verb == (if HasServiceDescriptor(dataUri) then GET else HEAD)
      modifies this`data, this`status, this`error
      modifies this`clickThroughService, this`loginService, this`externalService, this`kioskService
      modifies this`logoutService, this`tokenService, this`probeService, this`restrictedService
      ensures var o := FetchStep(old(State()), Call(accessToken, network, unescape), settlement0);
              State() == o.state && settlement == o.settlement && requests == o.requests
    {
      var request := Request(dataUri, verb, if accessToken.Some? then Some("Bearer " + accessToken.value) else None);
      requests := [request];
      var response := network(request);
      match response {
        case Done(None) =>
          status := Some(OK);
        case Done(Some(body)) =>
          AcceptInfoDocument(body, unescape);
        case Failed(_, _) =>
          AcceptFailure(response);
      }
      settlement := Settle(settlement0, Resolved);
    }

    /** The success callback of the fetch, for a response with a body. */
    method AcceptInfoDocument(body: Json, unescape: string -> string)
      modifies this`data, this`status
      modifies this`clickThroughService, this`loginService, this`externalService, this`kioskService
      modifies this`logoutService, this`tokenService, this`probeService, this`restrictedService
      ensures State() == AfterInfoDocument(old(State()), body, unescape)
    {
      var uri := unescape(JsText(body.id));
      data := Some(body);
      ParseAuthServices(JsonSource(body));
      // remove a trailing /info.json from both ids
      if EndsWith(uri, "/info.json") {
        uri := uri[..|uri| - 10];
      }
      var locator := dataUri;
      if locator.Some? && EndsWith(locator.value, "/info.json") {
        locator := Some(locator.value[..|locator.value| - 10]);
      }
      if Some(uri) != locator && loginService.Some? {
        status := Some(MOVED_TEMPORARILY);
      } else {
        status := Some(OK);
      }
    }

    /** The failure callback of the fetch. */
    method AcceptFailure(failure: Response)
      requires failure.Failed?
      modifies this`status, this`error
      modifies this`clickThroughService, this`loginService, this`externalService, this`kioskService
      modifies this`logoutService, this`tokenService, this`probeService, this`restrictedService
      ensures State() == AfterFailure(old(State()), failure)
    {
      status := Some(failure.status);
      error := Some(failure);
      if failure.responseJson.Some? {
        ParseAuthServices(JsonSource(failure.responseJson.value));
      }
    }
  }
}
