/**
  Locator derivation: which URI to fetch to learn whether a canvas's resource
  is accessible.  The content body is tried first, then the legacy images
  list, then a legacy IxIF service, then the canvas id.  When an image service
  is found, the URI is that service's IIIF Image API info document
  (`<service id>/info.json`).
*/
module Locator {
  import opened Wrappers
  import opened Iiif

  const InfoJson := "info.json"

  /** The id with a `/` appended unless it already ends with one. */
  function WithTrailingSlash(id: string): (r: string)
    ensures EndsWith(r, "/")
    ensures EndsWith(id, "/") ==> r == id
    ensures !EndsWith(id, "/") ==> |r| == |id| + 1 && r[..|id|] == id
  {
    if EndsWith(id, "/") then id else id + "/"
  }

  /** The last service of `services` whose profile is an image profile. */
  function LastImageService(services: seq<Service>): Option<Service> {
    if |services| == 0 then None
    else if IsImageProfile(services[|services| - 1].profile) then Some(services[|services| - 1])
    else LastImageService(services[..|services| - 1])
  }

  /** The info document URI of the last image service, or None when there is none. */
  function ImageServiceDescriptor(services: seq<Service>): Option<string> {
    match LastImageService(services)
    case None => None
    case Some(s) => Some(WithTrailingSlash(s.id) + InfoJson)
  }

  /**
    No image service is found exactly when no service has an image profile;
    otherwise the one found has an image profile and none follows it.
  */
  lemma {:induction false} LastImageServiceIsLast(services: seq<Service>)
    ensures LastImageService(services).None? <==>
            forall i :: 0 <= i < |services| ==> !IsImageProfile(services[i].profile)
    ensures LastImageService(services).Some? ==>
            exists i :: 0 <= i < |services| && services[i] == LastImageService(services).value &&
                        IsImageProfile(services[i].profile) &&
                        forall j :: i < j < |services| ==> !IsImageProfile(services[j].profile)
  {
    if |services| > 0 {
      var n := |services| - 1;
      var front := services[..n];
      if !IsImageProfile(services[n].profile) {
        LastImageServiceIsLast(front);
        assert forall i :: 0 <= i < n ==> front[i] == services[i];
      }
    }
  }

  /** An image service's info URI ends with `/info.json`. */
  lemma InfoUriEndsWithInfoJson(id: string)
    ensures EndsWith(WithTrailingSlash(id) + InfoJson, "/" + InfoJson)
  {
    var w := WithTrailingSlash(id);
    var u := w + InfoJson;
    assert u[|u| - 10..] == [w[|w| - 1]] + InfoJson;
  }

  /**
    The descriptor is absent exactly when no service has an image profile;
    otherwise it is built from the last image-profile service and ends with
    `/info.json`.
  */
  lemma ImageServiceDescriptorIsLast(services: seq<Service>)
    ensures ImageServiceDescriptor(services).None? <==>
            forall i :: 0 <= i < |services| ==> !IsImageProfile(services[i].profile)
    ensures ImageServiceDescriptor(services).Some? ==>
            exists i :: 0 <= i < |services| && IsImageProfile(services[i].profile) &&
                        (forall j :: i < j < |services| ==> !IsImageProfile(services[j].profile)) &&
                        ImageServiceDescriptor(services).value == WithTrailingSlash(services[i].id) + InfoJson
    ensures ImageServiceDescriptor(services).Some? ==> EndsWith(ImageServiceDescriptor(services).value, "/" + InfoJson)
  {
    LastImageServiceIsLast(services);
    if LastImageService(services).Some? {
      InfoUriEndsWithInfoJson(LastImageService(services).value.id);
    }
  }

  /**
    `_getImageServiceDescriptor`: scans every service, building the slashed id,
    and keeps the info URI of each image-profile service it meets, so the last
    one wins.
  */
  method GetImageServiceDescriptor(services: seq<Service>) returns (infoUri: Option<string>)
    ensures infoUri == ImageServiceDescriptor(services)
  {
    infoUri := None;
    for i := 0 to |services|
      invariant infoUri == ImageServiceDescriptor(services[..i])
    {
      var service := services[i];
      var id := service.id;
      if !EndsWith(id, "/") {
        id := id + "/";
      }
      if IsImageProfile(service.profile) {
        infoUri := Some(id + InfoJson);
      }
      assert services[..i + 1][..i] == services[..i];
    }
    assert services[..|services|] == services;
  }

  /** The URI a content resource stands for: its image descriptor, else its own id. */
  function ResourceLocator(resource: ContentResource): Option<string> {
    if |resource.services| > 0 && ImageServiceDescriptor(resource.services).Some? then
      ImageServiceDescriptor(resource.services)
    else
      Some(resource.id)
  }

  /** `_getDataUri`: the locator of a canvas, null only when there is nothing to probe. */
  function DataUri(canvas: Canvas): (r: Option<string>)
    ensures |canvas.content| > 0 ==> (r.None? <==> |canvas.content[0].body| == 0)
    ensures |canvas.content| == 0 && |canvas.images| > 0 ==> r.Some?
    ensures r.None? && |canvas.content| == 0 ==> canvas.id.None?
  {
    if |canvas.content| > 0 then
      var body := canvas.content[0].body;
      if |body| > 0 then ResourceLocator(body[0]) else None
    else if |canvas.images| > 0 then
      ResourceLocator(canvas.images[0].resource)
    else
      match Lookup(canvas.services, IxifProfile)
      case Some(service) => Some(service.infoUri)
      case None => canvas.id
  }

  /** `hasServiceDescriptor`: the locator names an info document. */
  predicate HasServiceDescriptor(dataUri: Option<string>) {
    dataUri.Some? && EndsWith(dataUri.value, InfoJson)
  }

  /** A content resource's locator is its last image service's info URI when it has one, else its id. */
  lemma ResourceLocatorCases(resource: ContentResource)
    ensures ResourceLocator(resource).Some?
    ensures ImageServiceDescriptor(resource.services).Some? ==>
            ResourceLocator(resource) == ImageServiceDescriptor(resource.services)
    ensures (forall i :: 0 <= i < |resource.services| ==> !IsImageProfile(resource.services[i].profile)) ==>
            ResourceLocator(resource) == Some(resource.id)
  {
    ImageServiceDescriptorIsLast(resource.services);
  }

  /**
    With non-empty content the first annotation alone decides: no body gives
    null, otherwise the first body's locator; the images list is never read.
  */
  lemma DataUriFromContent(canvas: Canvas, images: seq<ImageAnnotation>)
    requires |canvas.content| > 0
    ensures |canvas.content[0].body| == 0 ==> DataUri(canvas) == None
    ensures |canvas.content[0].body| > 0 ==> DataUri(canvas) == ResourceLocator(canvas.content[0].body[0])
    ensures DataUri(canvas.(images := images)) == DataUri(canvas)
  {
  }

  /**
    With empty content and non-empty images the first image's resource decides;
    with neither, the IxIF service's info URI, else the canvas id.
  */
  lemma DataUriWithoutContent(canvas: Canvas)
    requires |canvas.content| == 0
    ensures |canvas.images| > 0 ==> DataUri(canvas) == ResourceLocator(canvas.images[0].resource)
    ensures |canvas.images| == 0 && Lookup(canvas.services, IxifProfile).Some? ==>
            DataUri(canvas) == Some(Lookup(canvas.services, IxifProfile).value.infoUri)
    ensures |canvas.images| == 0 && Lookup(canvas.services, IxifProfile).None? ==>
            DataUri(canvas) == canvas.id
  {
  }

  /**
    A locator derived from an image service always names an info document, so
    the resource is later fetched with GET.
  */
  lemma ImageLocatorHasServiceDescriptor(resource: ContentResource)
    requires exists i :: 0 <= i < |resource.services| && IsImageProfile(resource.services[i].profile)
    ensures HasServiceDescriptor(ResourceLocator(resource))
  {
    ImageServiceDescriptorIsLast(resource.services);
    var u := ImageServiceDescriptor(resource.services).value;
    assert u[|u| - |InfoJson|..] == (u[|u| - 10..])[1..];
  }
}
