/**
  The part of the IIIF object model that the external-resource resolver reads.

  Canvases, annotations, content resources and services come from the
  manifest library; only the accessors the resolver calls are kept, as plain
  values.  A service's profile is given already classified (the library's
  profile constants and its image-profile test become the constructors of
  `Profile`), and a service's legacy info URI is given as a field.
*/
module Iiif {
  import opened Wrappers

  /** A service profile as the library classifies it. */
  datatype Profile =
    | ImageProfile(uri: string)     // any profile the library counts as an image service
    | IxifProfile                   // the legacy IxIF single-image interface
    // IIIF Authentication API 0.9
    | ClickThrough0 | Login0 | Restricted0 | Logout0 | Token0
    // IIIF Authentication API 1.0
    | ClickThrough1 | Login1 | External1 | Kiosk1 | Logout1 | Token1 | Probe1
    | OtherProfile(uri: string)

  predicate IsImageProfile(p: Profile) {
    p.ImageProfile?
  }

  /** A service handle: its id, its profile, its legacy info URI and its nested services. */
  datatype Service = Service(id: string, profile: Profile, infoUri: string, services: seq<Service>)

  /** An annotation body (presentation 3) or an image resource (presentation 2). */
  datatype ContentResource = ContentResource(id: string, width: int, height: int, services: seq<Service>)

  datatype Annotation = Annotation(body: seq<ContentResource>)

  datatype ImageAnnotation = ImageAnnotation(resource: ContentResource)

  /** A canvas; `id` is absent on a degenerate canvas. */
  datatype Canvas = Canvas(
    id: Option<string>,
    index: int,
    content: seq<Annotation>,
    images: seq<ImageAnnotation>,
    services: seq<Service>)

  /** A parsed JSON response body: its `@id`, its `contentLocation` and its `service` list. */
  datatype Json = Json(id: Option<string>, contentLocation: Option<string>, services: seq<Service>)

  /** The empty object `{}`. */
  const EmptyObject := Json(None, None, [])

  predicate EndsWith(s: string, suffix: string) {
    |suffix| <= |s| && s[|s| - |suffix|..] == suffix
  }

  /** What a JavaScript string conversion makes of a field that may be undefined. */
  function JsText(field: Option<string>): string {
    if field.Some? then field.value else "undefined"
  }

  /**
    The library's service lookup by profile: the first service in `services`
    with that profile, if any.
  */
  function Lookup(services: seq<Service>, profile: Profile): Option<Service> {
    if |services| == 0 then None
    else if services[0].profile == profile then Some(services[0])
    else Lookup(services[1..], profile)
  }

  /** The lookup finds nothing exactly when no service has the profile, and otherwise finds the first that has it. */
  lemma {:induction false} LookupIsFirst(services: seq<Service>, profile: Profile)
    ensures Lookup(services, profile).None? <==> forall i :: 0 <= i < |services| ==> services[i].profile != profile
    ensures Lookup(services, profile).Some? ==>
            exists i :: 0 <= i < |services| && services[i] == Lookup(services, profile).value &&
                        services[i].profile == profile &&
                        forall j :: 0 <= j < i ==> services[j].profile != profile
  {
    if |services| > 0 && services[0].profile != profile {
      var rest := services[1..];
      LookupIsFirst(rest, profile);
      assert forall i :: 0 <= i < |rest| ==> rest[i] == services[i + 1];
      if Lookup(rest, profile).Some? {
        var k :| 0 <= k < |rest| && rest[k] == Lookup(rest, profile).value && rest[k].profile == profile &&
                 forall j :: 0 <= j < k ==> rest[j].profile != profile;
        assert services[k + 1] == rest[k];
      }
    }
  }

  /** `service.getService(profile)`: a lookup among the service's nested services. */
  function SubService(service: Service, profile: Profile): Option<Service> {
    Lookup(service.services, profile)
  }
}
