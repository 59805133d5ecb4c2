/**
  Auth-service extraction.  The bundle of nullable service references of an
  external resource is refilled from a resource-shaped value, branching on
  the IIIF Authentication API version: 0.9 looks up click-through, login and
  restricted services; anything else is treated as 1.0, which looks up
  click-through, login, external and kiosk services.  In each branch the first
  present primary service, in a fixed precedence order, supplies the logout
  and token services (and, in 1.0, the probe service).  When no primary service
  is present those derived references keep whatever value they had.
*/
module Auth {
  import opened Wrappers
  import opened Iiif

  /** The service references an external resource holds. */
  datatype AuthServices = AuthServices(
    clickThrough: Option<Service>,
    login: Option<Service>,
    external: Option<Service>,
    kiosk: Option<Service>,
    logout: Option<Service>,
    token: Option<Service>,
    probe: Option<Service>,
    restricted: Option<Service>)

  const NoAuthServices := AuthServices(None, None, None, None, None, None, None, None)

  /** What the extraction is run on: a canvas, or a JSON body (an info document or an error body). */
  datatype AuthSource = CanvasSource(canvas: Canvas) | JsonSource(json: Json)

  const Auth09: real := 0.9

  /** The services found directly on the source. */
  function SourceServices(source: AuthSource): seq<Service> {
    match source
    case CanvasSource(canvas) => canvas.services
    case JsonSource(json) => json.services
  }

  /**
    The services the 1.0 branch scans: for a canvas with a content body, those
    of the first body of the first annotation; otherwise the source's own.
  */
  function Auth1Services(source: AuthSource): seq<Service> {
    match source
    case CanvasSource(canvas) =>
      if |canvas.content| > 0 && |canvas.content[0].body| > 0 then canvas.content[0].body[0].services
      else canvas.services
    case JsonSource(json) => json.services
  }

  /** The first present candidate, in list order. */
  function FirstPresent(candidates: seq<Option<Service>>): (r: Option<Service>)
    ensures r.None? <==> forall i :: 0 <= i < |candidates| ==> candidates[i].None?
    ensures r.Some? ==> exists i :: 0 <= i < |candidates| && candidates[i] == r &&
                                    forall j :: 0 <= j < i ==> candidates[j].None?
  {
    if |candidates| == 0 then None
    else if candidates[0].Some? then candidates[0]
    else
      var r := FirstPresent(candidates[1..]);
      assert r.Some? ==> exists i :: 1 <= i < |candidates| && candidates[i] == r &&
                                     forall j :: 0 <= j < i ==> candidates[j].None? by {
        if r.Some? {
          var k :| 0 <= k < |candidates[1..]| && candidates[1..][k] == r &&
                   forall j :: 0 <= j < k ==> candidates[1..][j].None?;
          assert candidates[k + 1] == r;
        }
      }
      r
  }

  /** `service.getService(profile)` on a service that may be absent. */
  function Derived(primary: Option<Service>, profile: Profile): Option<Service>
    requires primary.Some?
  {
    SubService(primary.value, profile)
  }

  /** The 0.9 branch on the services `services`. */
  function ParseAuth09(services: seq<Service>, prior: AuthServices): (r: AuthServices)
    ensures r.clickThrough == Lookup(services, ClickThrough0) && r.login == Lookup(services, Login0) &&
            r.restricted == Lookup(services, Restricted0)
    ensures r.external == prior.external && r.kiosk == prior.kiosk && r.probe == prior.probe
    ensures r.clickThrough.None? && r.login.None? && r.restricted.None? ==>
              r.logout == prior.logout && r.token == prior.token
  {
    var a := prior.(
      clickThrough := Lookup(services, ClickThrough0),
      login := Lookup(services, Login0),
      restricted := Lookup(services, Restricted0));
    if a.clickThrough.Some? then
      a.(logout := Derived(a.clickThrough, Logout0), token := Derived(a.clickThrough, Token0))
    else if a.login.Some? then
      a.(logout := Derived(a.login, Logout0), token := Derived(a.login, Token0))
    else if a.restricted.Some? then
      a.(logout := Derived(a.restricted, Logout0), token := Derived(a.restricted, Token0))
    else
      a
  }

  /** The 1.0 branch on the (already narrowed) services `services`. */
  function ParseAuth1(services: seq<Service>, prior: AuthServices): (r: AuthServices)
    ensures r.clickThrough == Lookup(services, ClickThrough1) && r.login == Lookup(services, Login1) &&
            r.external == Lookup(services, External1) && r.kiosk == Lookup(services, Kiosk1)
    ensures r.restricted == prior.restricted
    ensures r.clickThrough.None? && r.login.None? && r.external.None? && r.kiosk.None? ==>
              r.logout == prior.logout && r.token == prior.token && r.probe == prior.probe
  {
    var a := prior.(
      clickThrough := Lookup(services, ClickThrough1),
      login := Lookup(services, Login1),
      external := Lookup(services, External1),
      kiosk := Lookup(services, Kiosk1));
    if a.clickThrough.Some? then
      a.(logout := Derived(a.clickThrough, Logout1), token := Derived(a.clickThrough, Token1),
         probe := Derived(a.clickThrough, Probe1))
    else if a.login.Some? then
      a.(logout := Derived(a.login, Logout1), token := Derived(a.login, Token1),
         probe := Derived(a.login, Probe1))
    else if a.external.Some? then
      a.(logout := Derived(a.external, Logout1), token := Derived(a.external, Token1),
         probe := Derived(a.external, Probe1))
    else if a.kiosk.Some? then
      a.(logout := Derived(a.kiosk, Logout1), token := Derived(a.kiosk, Token1),
         probe := Derived(a.kiosk, Probe1))
    else
      a
  }

  /** `_parseAuthServices`, as the new bundle it leaves behind. */
  function ParseAuth(version: real, source: AuthSource, prior: AuthServices): (r: AuthServices)
    ensures version == Auth09 ==> r.external == prior.external && r.kiosk == prior.kiosk && r.probe == prior.probe
    ensures version != Auth09 ==> r.restricted == prior.restricted
  {
    if version == Auth09 then ParseAuth09(SourceServices(source), prior)
    else ParseAuth1(Auth1Services(source), prior)
  }

  /** `isAccessControlled`: one of the services that gate access is present. */
  predicate AccessControlled(a: AuthServices) {
    a.clickThrough.Some? || a.login.Some? || a.external.Some? || a.kiosk.Some? || a.probe.Some?
  }

  /**
    Authentication API 0.9: click-through, login and restricted are looked up
    on the source; the first present of click-through > login > restricted
    supplies logout and token, which otherwise keep their previous values;
    external, kiosk and probe are untouched.
  */
  lemma {:induction false} Auth09Precedence(source: AuthSource, prior: AuthServices)
    ensures var r := ParseAuth(Auth09, source, prior);
            var services := SourceServices(source);
            var primary := FirstPresent([Lookup(services, ClickThrough0), Lookup(services, Login0),
                                         Lookup(services, Restricted0)]);
            && r.clickThrough == Lookup(services, ClickThrough0)
            && r.login == Lookup(services, Login0)
            && r.restricted == Lookup(services, Restricted0)
            && r.logout == (if primary.Some? then SubService(primary.value, Logout0) else prior.logout)
            && r.token == (if primary.Some? then SubService(primary.value, Token0) else prior.token)
            && r.external == prior.external && r.kiosk == prior.kiosk && r.probe == prior.probe
  {
    var services := SourceServices(source);
    var cs := [Lookup(services, ClickThrough0), Lookup(services, Login0), Lookup(services, Restricted0)];
    assert cs[1..] == [cs[1], cs[2]] && cs[1..][1..] == [cs[2]];
  }

  /**
    Authentication API 1.0: click-through, login, external and kiosk are looked
    up on the (narrowed) source; the first present of click-through > login >
    external > kiosk supplies logout, token and probe, which otherwise keep
    their previous values; restricted is untouched.
  */
  lemma {:induction false} Auth1Precedence(version: real, source: AuthSource, prior: AuthServices)
    requires version != Auth09
    ensures var r := ParseAuth(version, source, prior);
            var services := Auth1Services(source);
            var primary := FirstPresent([Lookup(services, ClickThrough1), Lookup(services, Login1),
                                         Lookup(services, External1), Lookup(services, Kiosk1)]);
            && r.clickThrough == Lookup(services, ClickThrough1)
            && r.login == Lookup(services, Login1)
            && r.external == Lookup(services, External1)
            && r.kiosk == Lookup(services, Kiosk1)
            && r.logout == (if primary.Some? then SubService(primary.value, Logout1) else prior.logout)
            && r.token == (if primary.Some? then SubService(primary.value, Token1) else prior.token)
            && r.probe == (if primary.Some? then SubService(primary.value, Probe1) else prior.probe)
            && r.restricted == prior.restricted
  {
    var services := Auth1Services(source);
    var cs := [Lookup(services, ClickThrough1), Lookup(services, Login1),
               Lookup(services, External1), Lookup(services, Kiosk1)];
    assert cs[1..] == [cs[1], cs[2], cs[3]] && cs[1..][1..] == [cs[2], cs[3]] && cs[1..][1..][1..] == [cs[3]];
  }

  /** Precedence is strict: with both click-through and login present, logout and token come from click-through. */
  lemma ClickThroughBeatsLogin(version: real, source: AuthSource, prior: AuthServices)
    requires version == Auth09 ==> Lookup(SourceServices(source), ClickThrough0).Some? &&
                                   Lookup(SourceServices(source), Login0).Some?
    requires version != Auth09 ==> Lookup(Auth1Services(source), ClickThrough1).Some? &&
                                   Lookup(Auth1Services(source), Login1).Some?
    ensures var r := ParseAuth(version, source, prior);
            r.logout == SubService(r.clickThrough.value, if version == Auth09 then Logout0 else Logout1) &&
            r.token == SubService(r.clickThrough.value, if version == Auth09 then Token0 else Token1)
  {
  }

  /**
    In 1.0, a canvas with a content body is parsed as if its first body were
    the source: the canvas's own services play no part.
  */
  lemma Auth1NarrowsToBody(version: real, canvas: Canvas, prior: AuthServices)
    requires version != Auth09
    requires |canvas.content| > 0 && |canvas.content[0].body| > 0
    ensures ParseAuth(version, CanvasSource(canvas), prior) ==
            ParseAuth(version, JsonSource(Json(None, None, canvas.content[0].body[0].services)), prior)
  {
  }

  /**
    A re-parse that finds no primary service clears the primary references but
    leaves logout and token (and probe) as they were.
  */
  lemma StaleServicesSurvive(version: real, source: AuthSource, prior: AuthServices)
    requires version == Auth09 ==> forall i :: 0 <= i < |SourceServices(source)| ==>
               SourceServices(source)[i].profile !in {ClickThrough0, Login0, Restricted0}
    requires version != Auth09 ==> forall i :: 0 <= i < |Auth1Services(source)| ==>
               Auth1Services(source)[i].profile !in {ClickThrough1, Login1, External1, Kiosk1}
    ensures var r := ParseAuth(version, source, prior);
            r.clickThrough.None? && r.login.None? &&
            r.logout == prior.logout && r.token == prior.token && r.probe == prior.probe
  {
    var services := if version == Auth09 then SourceServices(source) else Auth1Services(source);
    forall p: Profile ensures Lookup(services, p).None? <==> forall i :: 0 <= i < |services| ==> services[i].profile != p {
      LookupIsFirst(services, p);
    }
  }

  /**
    Which sources make a resource access-controlled after a parse.  In 1.0:
    exactly those with a click-through, login, external or kiosk service, or
    else a probe service kept from before.  In 0.9: exactly those with a
    click-through or login service, or else an external, kiosk or probe
    service kept from before; a restricted service does not count.
  */
  lemma PrimaryMeansAccessControlled(version: real, source: AuthSource, prior: AuthServices)
    ensures version != Auth09 ==>
              (AccessControlled(ParseAuth(version, source, prior)) <==>
                 (exists i :: 0 <= i < |Auth1Services(source)| &&
                              Auth1Services(source)[i].profile in {ClickThrough1, Login1, External1, Kiosk1}) ||
                 prior.probe.Some?)
    ensures version == Auth09 ==>
              (AccessControlled(ParseAuth(version, source, prior)) <==>
                 (exists i :: 0 <= i < |SourceServices(source)| &&
                              SourceServices(source)[i].profile in {ClickThrough0, Login0}) ||
                 prior.external.Some? || prior.kiosk.Some? || prior.probe.Some?)
  {
    var services := if version == Auth09 then SourceServices(source) else Auth1Services(source);
    forall p: Profile ensures Lookup(services, p).None? <==> forall i :: 0 <= i < |services| ==> services[i].profile != p {
      LookupIsFirst(services, p);
    }
  }

  /** A 0.9 source carrying only a restricted service does not make a fresh resource access-controlled. */
  lemma RestrictedAloneIsNotAccessControlled(source: AuthSource)
    requires Lookup(SourceServices(source), ClickThrough0).None? && Lookup(SourceServices(source), Login0).None?
    requires Lookup(SourceServices(source), Restricted0).Some?
    ensures ParseAuth(Auth09, source, NoAuthServices).restricted.Some?
    ensures !AccessControlled(ParseAuth(Auth09, source, NoAuthServices))
  {
  }
}
