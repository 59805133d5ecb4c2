# Manifold helpers: external resources, multi-selection, metadata groups

This project is a Dafny model of three classes from the Manifold IIIF helper
library, with proofs about them.

- **External resource** (`src/ExternalResource.ts`). Each canvas gets an
  external resource. It holds the resource's *locator*, the URI to fetch to
  learn whether the canvas's image or media is accessible. It also holds the
  IIIF Authentication API services that gate access (click-through, login,
  external, kiosk, restricted, and the logout, token and probe services
  derived from them), and the width and height of the first image. `getData`
  negotiates accessibility. It either asks the probe service once, or answers
  200 without a request, or fetches the locator with GET or HEAD. It then
  records a status: 200, 302 (relocated or degraded), or the failed request's
  status.
  - Modules: `Iiif` holds the object model. `Locator` derives the locator.
    `Auth` extracts the services. `Negotiation` describes one `getData` call
    as a pure step. `ExternalResources` holds the class whose methods update
    its fields in place, each proved equal to those functions.
- **Multi-select state** (`src/MultiSelectState.ts`). Canvases and ranges
  carry `multiSelected` and `multiSelectEnabled` flags that the state updates
  in place. Selecting a range also selects every canvas it names. Module
  `MultiSelect`.
- **Metadata group** (`src/MetadataGroup.ts`). An append-only list of
  label/value items, each tagged with whether it comes from the root level.
  Module `Metadata`.

The network is a function from request to response. Each `getData` call
returns the requests it issued, so "no request" and "at most one probe" can
be stated. URL unescaping and URL normalisation are function parameters.

Three behaviours of the code are kept as written, though they look unintended:

- A missing locator rejects the promise but does not stop the call. As on
  every call, `data` is reset first. Because the rejection does not return,
  the probe or fetch still runs and the status is still set
  (`Negotiation.SettlementOfResolve`, `Negotiation.MissingLocatorStillFetches`).
- An info document without `@id` is not treated as "OK without data". The
  id is converted to the text `undefined`, unescaped and compared like any
  other id (`Iiif.JsText`), so with a login service present the status is
  302.
- A probe answer with no body throws inside the success callback. The status
  is unchanged and the promise settles no further: it stays pending, or stays
  rejected when the locator was missing. As on every call, `data` becomes
  `{}`, and `isProbed` is set.

## Model

| member | source | states |
|---|---|---|
| Iiif.LookupIsFirst | src/ExternalResource.ts:117-119 | a service lookup by profile finds nothing exactly when no service has that profile, and otherwise finds the first service that has it |
| Locator.WithTrailingSlash | src/ExternalResource.ts:40-44 | the result ends with `/`; an id already ending in `/` is kept, any other id gets exactly one `/` appended |
| Locator.LastImageServiceIsLast | src/ExternalResource.ts:38-49 | no image service is found exactly when no profile is an image profile; otherwise the one found has an image profile and no later service does |
| Locator.InfoUriEndsWithInfoJson | src/ExternalResource.ts:42-47 | a descriptor built from any service id ends with `/info.json` |
| Locator.ImageServiceDescriptorIsLast | src/ExternalResource.ts:35-52 | the descriptor is null exactly when no service has an image profile; otherwise it is the slashed id of the last image-profile service followed by `info.json`, and it ends with `/info.json` |
| Locator.GetImageServiceDescriptor | src/ExternalResource.ts:35-52 | the loop that overwrites `infoUri` at each image-profile service returns the last-image-service descriptor |
| Locator.ResourceLocatorCases | src/ExternalResource.ts:66-79 | a content resource's locator is never null; it is its image descriptor when one exists, and its own id when no service has an image profile |
| Locator.DataUriFromContent | src/ExternalResource.ts:61-81 | with non-empty content: null when the first annotation has no body, else the first body's locator; the images list is never read |
| Locator.DataUriWithoutContent | src/ExternalResource.ts:83-110 | with empty content: the first image resource's locator; with no images either, the IxIF service's info URI, else the canvas id |
| Locator.DataUri | src/ExternalResource.ts:54-111 | `_getDataUri`: with content, null exactly when the first annotation has no body; with images only, never null; without content, null only for a canvas with no id. Its full meaning is stated by `DataUriFromContent`, `DataUriWithoutContent` and `ResourceLocatorCases` |
| Locator.ImageLocatorHasServiceDescriptor | src/ExternalResource.ts:205-208 | a locator derived from a resource with an image service always counts as a service descriptor, so it is later fetched with GET |
| Auth.Auth09Precedence | src/ExternalResource.ts:115-130 | 0.9: click-through, login and restricted are looked up; the first present of click-through > login > restricted supplies logout and token, which otherwise keep their old values; external, kiosk and probe are untouched |
| Auth.Auth1Precedence | src/ExternalResource.ts:148-169 | 1.0: click-through, login, external and kiosk are looked up; the first present of them in that order supplies logout, token and probe, which otherwise keep their old values; restricted is untouched |
| Auth.ParseAuth09 | src/ExternalResource.ts:115-130 | the 0.9 branch: click-through, login and restricted are the lookups on the source; external, kiosk and probe are untouched; with no primary service logout and token keep their values. Precedence is stated by `Auth09Precedence` |
| Auth.ParseAuth1 | src/ExternalResource.ts:148-169 | the 1.0 branch: click-through, login, external and kiosk are the lookups; restricted is untouched; with no primary service logout, token and probe keep their values. Precedence is stated by `Auth1Precedence` |
| Auth.ParseAuth | src/ExternalResource.ts:113-171 | `_parseAuthServices`: exactly 0.9 leaves external, kiosk and probe alone, and any other version leaves restricted alone. The branches are stated by `Auth09Precedence`, `Auth1Precedence`, `Auth1NarrowsToBody` and `StaleServicesSurvive` |
| Auth.ClickThroughBeatsLogin | src/ExternalResource.ts:121-160 | with both click-through and login present, logout and token come from click-through in either version |
| Auth.Auth1NarrowsToBody | src/ExternalResource.ts:134-146 | in 1.0 a canvas with a content body is parsed exactly as its first body's services would be; the canvas's own services play no part |
| Auth.StaleServicesSurvive | src/ExternalResource.ts:121-169 | a re-parse finding no primary service clears click-through and login but leaves logout, token and probe as they were |
| Auth.PrimaryMeansAccessControlled | src/ExternalResource.ts:113-203 | after a parse, the resource is access-controlled exactly when, in 1.0, the narrowed source has a click-through, login, external or kiosk service or a probe service was already known; in 0.9, exactly when the source has a click-through or login service or an external, kiosk or probe service was already known (a restricted service never counts) |
| Auth.RestrictedAloneIsNotAccessControlled | src/ExternalResource.ts:119 | a 0.9 source with only a restricted service sets it but does not make a fresh resource access-controlled |
| Negotiation.StripInfoJson | src/ExternalResource.ts:296-305 | a URI ending in `/info.json` loses exactly that suffix; any other URI is unchanged |
| Negotiation.ProbeStep | src/ExternalResource.ts:224-250 | the probe branch: one probe request, `isProbed` set, services, data and locator untouched; it resolves unless the answer has no body. Outcomes are stated by `ProbeOutcome` |
| Negotiation.AfterInfoDocument | src/ExternalResource.ts:290-315 | the info-document callback: the body is stored, error, locator and `isProbed` are kept, and the status is 200, or 302 only when a login service is known after the re-parse. Stated in full by `FetchOutcome` |
| Negotiation.AfterFailure | src/ExternalResource.ts:317-325 | the failure callback: the failure's status and the error are recorded; data, locator and `isProbed` are kept; without an error body the services are kept. Stated in full by `FetchFailure` |
| Negotiation.FetchStep | src/ExternalResource.ts:257-327 | the fetch branch: exactly one request for the locator, always resolved with a status, locator and `isProbed` kept. Outcomes are stated by `FetchOutcome` and `FetchFailure` |
| Negotiation.Resolve | src/ExternalResource.ts:213-331 | `getData`: at most one request; `data` is always set; locator and version are kept. Stated in full by `RequestsIssued`, `ResolveKeeps`, `SettlementOfResolve` and `ProbeAtMostOnce` |
| Negotiation.RequestsIssued | src/ExternalResource.ts:224-283 | one call issues the probe request, or no request (short circuit, status 200), or one request for the locator with GET for a service descriptor and HEAD otherwise, carrying the Bearer header when a token is given; no request happens exactly on the short circuit |
| Negotiation.ResolveKeeps | src/ExternalResource.ts:224-226 | the locator and API version never change; `isProbed` becomes true exactly when the probe path is taken and never goes back |
| Negotiation.ProbeOutcome | src/ExternalResource.ts:232-250 | probe path: a body gives 200 exactly when its unescaped `contentLocation` equals the locator, else 302; a failure records its status and the error; the services are untouched |
| Negotiation.FetchOutcome | src/ExternalResource.ts:283-315 | fetch path: an empty answer gives 200; an info document is stored and re-parsed for services, and the status is 302 exactly when the stripped ids differ and a login service is then known, else 200 |
| Negotiation.FetchFailure | src/ExternalResource.ts:317-326 | fetch failure: status and error are recorded, and services are re-parsed from the error body exactly when it has one |
| Negotiation.SettlementOfResolve | src/ExternalResource.ts:217-221 | the promise is rejected exactly when the locator is null or empty; it stays pending exactly when a valid locator's probe answers without a body; a resolution always comes with a status; a missing locator still gets status 200 on the short circuit |
| Negotiation.MissingLocatorStillFetches | src/ExternalResource.ts:219-221 | with no locator, an access-controlled resource off the probe path is rejected and still sends a HEAD request with no URL |
| Negotiation.NoProbeAfterProbed | src/ExternalResource.ts:224-226 | once probed, no later sequence of calls takes the probe path |
| Negotiation.ProbeAtMostOnce | src/ExternalResource.ts:224-226 | over any sequence of calls on one resource the probe service is requested at most once |
| ExternalResources.ExternalResource.constructor | src/ExternalResource.ts:25-33 | the locator, index and version are stored; the services are those the parse finds on the canvas from an empty bundle; nothing is probed; the dimensions come from the first image, else the first content body, else stay unset |
| ExternalResources.ExternalResource.ParseAuthServices | src/ExternalResource.ts:113-171 | the service fields become the bundle the version-dispatched parse computes from the old fields |
| ExternalResources.ExternalResource.ParseAuthServices09 | src/ExternalResource.ts:115-130 | the 0.9 assignments leave the bundle that the 0.9 parse function computes |
| ExternalResources.ExternalResource.ParseAuthServices1 | src/ExternalResource.ts:148-169 | the 1.0 assignments leave the bundle that the 1.0 parse function computes |
| ExternalResources.ExternalResource.ParseDimensions | src/ExternalResource.ts:173-196 | width and height come from the first image's resource, else the first content body, else keep their values |
| ExternalResources.ExternalResource.IsAccessControlled | src/ExternalResource.ts:198-203 | true exactly when click-through, login, external, kiosk or probe is present; restricted, logout and token do not count |
| ExternalResources.ExternalResource.HasDescriptor | src/ExternalResource.ts:205-211 | true exactly when the locator is present and ends with `info.json` |
| ExternalResources.ExternalResource.GetData | src/ExternalResource.ts:213-331 | the new fields, the settlement and the requests are those of one `Resolve` step from the old fields |
| ExternalResources.ExternalResource.UseProbe | src/ExternalResource.ts:224-250 | the probe branch updates the fields as the probe step function does |
| ExternalResources.ExternalResource.Fetch | src/ExternalResource.ts:257-327 | the fetch branch updates the fields as the fetch step function does |
| ExternalResources.ExternalResource.AcceptInfoDocument | src/ExternalResource.ts:290-315 | the info-document callback stores the body, re-parses services and sets the status as the model does |
| ExternalResources.ExternalResource.AcceptFailure | src/ExternalResource.ts:317-325 | the failure callback records status and error and re-parses an error body |
| MultiSelect.SelectedOf | src/MultiSelectState.ts:24-30 | the `.where(x => x.multiSelected).toArray()` filter: no longer than its input, and holding exactly the selected items. Multiplicity and order are stated by `SelectedOfCounts` and `SelectedOfAppend` |
| MultiSelect.SelectedOfCounts | src/MultiSelectState.ts:24-30 | the selected-items filter keeps every selected item exactly as many times as it occurs, and no unselected item |
| MultiSelect.SelectedOfAppend | src/MultiSelectState.ts:24-30 | the filter preserves order: filtering a concatenation is the concatenation of the filtered parts |
| MultiSelect.SelectedOfKeepsAll | src/MultiSelectState.ts:8-14 | the selected-items filter keeps all items exactly when every item is selected |
| MultiSelect.IndexOfId | src/MultiSelectState.ts:32-34 | the first position whose normalised id equals the key's normalised id |
| MultiSelect.MultiSelectState.constructor | src/MultiSelectState.ts:4-6 | a new state is disabled with no ranges and no canvases |
| MultiSelect.MultiSelectState.GetAllSelectedCanvases | src/MultiSelectState.ts:24-26 | the result holds exactly the selected canvases, each as often as it occurs in `canvases`, and is no longer than `canvases` |
| MultiSelect.MultiSelectState.GetAllSelectedRanges | src/MultiSelectState.ts:28-30 | the result holds exactly the selected ranges, each as often as it occurs in `ranges`, and is no longer than `ranges` |
| MultiSelect.MultiSelectState.AllCanvasesSelected | src/MultiSelectState.ts:8-10 | true exactly when there is a canvas and every canvas is selected |
| MultiSelect.MultiSelectState.AllRangesSelected | src/MultiSelectState.ts:12-14 | true exactly when there is a range and every range is selected |
| MultiSelect.MultiSelectState.AllSelected | src/MultiSelectState.ts:16-18 | true exactly when both lists are non-empty and every item of `getAll()` is selected |
| MultiSelect.MultiSelectState.GetAll | src/MultiSelectState.ts:20-22 | the canvases in order, followed by the ranges in order |
| MultiSelect.MultiSelectState.GetCanvasById | src/MultiSelectState.ts:32-34 | a canvas of the state whose normalised id matches |
| MultiSelect.MultiSelectState.RangesCanvasesMembers | src/MultiSelectState.ts:86-93 | the canvases gathered from ranges are exactly those some range names by an id |
| MultiSelect.MultiSelectState.GetCanvasesByIds | src/MultiSelectState.ts:36-45 | one canvas per id, in the order of the ids, each the lookup of its id |
| MultiSelect.MultiSelectState.GetRangeCanvases | src/MultiSelectState.ts:47-50 | one canvas per id of the range, in the order of its ids, each the lookup of its id; so exactly the canvases it names |
| MultiSelect.MultiSelectState.SelectCanvases | src/MultiSelectState.ts:66-71 | every given canvas takes the flag; enabled flags are unchanged |
| MultiSelect.MultiSelectState.SelectAllCanvases | src/MultiSelectState.ts:62-64 | every canvas takes the flag |
| MultiSelect.MultiSelectState.SelectCanvas | src/MultiSelectState.ts:57-60 | the first canvas with the same id takes the flag, and only its `multiSelected` may change |
| MultiSelect.MultiSelectState.SelectRanges | src/MultiSelectState.ts:86-93 | every given range and every canvas they name take the flag; every other canvas keeps it; enabled flags are unchanged |
| MultiSelect.MultiSelectState.SelectOneRange | src/MultiSelectState.ts:88-91 | one range and the canvases it names take the flag; other canvases keep theirs |
| MultiSelect.MultiSelectState.SelectAllRanges | src/MultiSelectState.ts:82-84 | every range and every canvas named by a range take the flag; other canvases keep it; no enabled flag changes |
| MultiSelect.MultiSelectState.SelectRange | src/MultiSelectState.ts:73-80 | the first range with that id and the canvases it names take the flag; every other item keeps it; no enabled flag changes |
| MultiSelect.MultiSelectState.SelectAll | src/MultiSelectState.ts:52-55 | every item takes the flag, and afterwards everything counts as selected exactly when selecting and both lists are non-empty; no enabled flag changes |
| MultiSelect.MultiSelectState.SetEnabled | src/MultiSelectState.ts:95-107 | the state and every item get the enabled flag; disabling deselects every item, enabling keeps the selection |
| Metadata.MetadataGroup.constructor | src/MetadataGroup.ts:3-10 | a new group stores the resource and the label (absent by default) and has no items |
| Metadata.MetadataGroup.AddItem | src/MetadataGroup.ts:12-14 | the item is appended; the earlier items are unchanged |
| Metadata.MetadataGroup.AddMetadata | src/MetadataGroup.ts:16-22 | all pairs are appended in order; each is tagged with the root-level flag (false by default); earlier items not among them keep their tag |

## Left out

- The transport (jQuery `$.ajax`, the `dataType` setting) is replaced by a function from request to response. The `Authorization` header is kept as a request field.
- The Promise machinery is left out. The settlement is a value in which the first settlement wins, and what `getData` resolves with is the resource's new state.
- Reentrancy: a second `getData` on the same resource before the first settles is not modelled. Calls are sequential, one `Resolve` step each.
- The back-reference `canvas.externalResource = this` is not modelled, and neither are the unused fields `authHoldingPage` and `isResponseHandled`.
- Library calls are abstracted:
  - `isImageProfile` becomes a tag of the `Profile` datatype;
  - `getService` becomes the first service with that profile;
  - `getInfoUri` is given as a service field;
  - `unescape` and `normaliseUrl` are function parameters.
- A failed `.first()` lookup in `getCanvasById`, `selectCanvas` and `selectRange` is a precondition: the id must be present.
- JavaScript numbers are modelled loosely. Widths, heights and statuses are integers, the version is a real, and the 0.9 test is exact equality.
- Strings are character sequences with no Unicode semantics.
- Metadata items: `label` is a reserved word in Dafny, so the label fields are called `labelText`. A group's resource is a type parameter.
