# Listing form of the MERN-Estate client

This project models the listing form logic shared by the two listing pages of
the MERN-Estate single-page application, and proves properties about it. The
pages are `CreateListing.jsx` and `UpdateListing.jsx`.

Each page keeps one form record. The record holds the image URLs, the name,
description and address, the listing type, the bedroom and bathroom counts,
the regular and discount prices, and the `offer`, `parking` and `furnished`
flags. It also keeps the upload and submit flags (`uploading`, `loading`) and
error messages (`imageUploadError`, `error`). Three handlers change this
state: the field-change handler, the image-batch upload and the submit check.
The update page also loads the stored listing into the record.

Modules:

- `ListingForm` holds what both pages share. The record is a map from field
  name to a JavaScript value, so `{...formData, [id]: v}` is `formData[id := v]`.
  The module also holds the initial record, the input events and the inputs
  both pages render. It models the per-file upload and `Promise.all` as an
  all-or-nothing join in file order (`UploadAll`), and the JavaScript `<` and
  unary `+` on strings and numbers. `WellShaped` says every field of the
  initial record is present with a value of its kind.
- `CreateListing` models the create page. `Change`, `AfterUpload` and
  `Validate` are the pure record rebuilds. The class `CreateListingPage` holds
  the page state, and its handler methods are proved against those functions.
  The upload handler keeps the source's loop that fills `promises`. The page
  invariant `FormInvariant` says the record is well shaped, both prices are
  numbers and there are at most six images.
- `UpdateListing` models the update page in the same way. Its `handleChange`
  has three independent `if`s, and each one rebuilds the record from the same
  `formData`. So when more than one fires, the last `setFormData` decides.
  The method keeps the three `if`s and is proved equal to `Change`, which
  states that rule directly.
- `PageComparison` relates the two pages. The image guards `<= 6` and `< 7`
  accept the same batches, and both pages append the same URLs. Off number
  inputs, both change handlers build the same record. On number inputs only
  the representation differs: a number on the create page, the raw string on
  the update page. The replies the pages count as saved differ, and so do the
  overlapping branches of an unrendered input. The main theorem is
  `SameListingsAccepted`. It runs the same edits and image batches on both
  pages from the initial record. Afterwards the two pages hold the same
  images and accept exactly the same listings. The proof is by induction over
  the run, with a correspondence between the two records.

Abstract inputs:

- The unary `+` coercion of a string is a parameter `parse: string -> int`.
- Each file's upload to the image host is a parameter
  `store: ImageFile -> Upload`. An upload either returns a URL or fails.
- The server's answer to a create or update request is a `Reply`. It carries
  the `success` and `message` fields of the response body, or it is a thrown
  error.
- For loading, the fetched listing is the parsed response object.
- The current user's id is a parameter.

Only the create page coerces number inputs (`CreateListing.jsx:86`). The
update page stores the raw string (`UpdateListing.jsx:106-109`) and coerces
only when it compares prices (`UpdateListing.jsx:119`).

## Model

| member | source | states |
|---|---|---|
| `ListingForm.InitialForm` | client/src/pages/CreateListing.jsx:8-21 | The starting record has every field of its kind, no images, type `rent`, regular price 50 and discount price 0. |
| `ListingForm.RenderedInputSorts` | client/src/pages/UpdateListing.jsx:157-257 | Every rendered input is exactly one of: a type radio, a feature checkbox, or a number, text or textarea input naming a field other than `type`. Only the bedroom, bathroom and price inputs are number inputs. |
| `ListingForm.IsTypeChoice` | client/src/pages/CreateListing.jsx:81 | The type-radio test: the id is `sale` or `rent`. |
| `ListingForm.IsCheckbox` | client/src/pages/CreateListing.jsx:83 | The feature-checkbox test: the id is `parking`, `furnished` or `offer`. |
| `ListingForm.IsValueInput` | client/src/pages/UpdateListing.jsx:101-105 | The value-input test: the input's `type` is `number`, `text` or `textarea`. |
| `ListingForm.IsRendered` | client/src/pages/CreateListing.jsx:126-235 | An event comes from one of the twelve inputs wired to `handleChange`, listed with their DOM types in `RenderedInputs`. The update page renders the same twelve (UpdateListing.jsx:157-257). |
| `ListingForm.UploadAll` | client/src/pages/CreateListing.jsx:44-45 | The join succeeds exactly when every upload succeeded. It then yields one URL per upload, in upload order. |
| `ListingForm.UploadBatch` | client/src/pages/CreateListing.jsx:37-45 | Uploading a selection succeeds exactly when every file's upload succeeds. It then yields one URL per file, in file order. |
| `ListingForm.AppendUrls` | client/src/pages/CreateListing.jsx:46-49 | The new `imageUrls` is the old list followed by the new URLs. No other field changes, and the record keeps its shape. |
| `ListingForm.ToNumber` | client/src/pages/UpdateListing.jsx:119 | Unary `+`: a number is itself, a string is coerced by `parse`. |
| `ListingForm.StrLess` | client/src/pages/CreateListing.jsx:93 | JavaScript `<` on two strings, character by character. A proper prefix is below the longer string, and no string is below itself. |
| `ListingForm.JsLess` | client/src/pages/CreateListing.jsx:93 | JavaScript `<` on the raw prices: string order when both are strings, otherwise numeric order after coercion. |
| `ListingForm.Truthy` | client/src/pages/CreateListing.jsx:106 | JavaScript truthiness of `response.data.success`: absent, `false`, `0` and `""` are falsy, anything else truthy. |
| `ListingForm.JsLessIrreflexive` | client/src/pages/CreateListing.jsx:93 | JavaScript `<` never holds between a string or number and itself. For strings it follows from `StrLess`'s contract, since a string is a prefix of itself. |
| `ListingForm.WithUserRef` | client/src/pages/CreateListing.jsx:101-104 | The payload has `userRef` set to the user's id. Every other field is the record's own. |
| `CreateListing.AfterUpload` | client/src/pages/CreateListing.jsx:33-58 | A batch is applied only if it is non-empty, keeps the total at six or fewer, and every upload succeeds. The old URLs stay as a prefix, the new URLs follow in file order and the total is at most six. Otherwise the record is unchanged. |
| `CreateListing.AcceptsBatch` | client/src/pages/CreateListing.jsx:34 | A batch passes the guard when it is non-empty and the total stays at six or fewer. |
| `CreateListing.Change` | client/src/pages/CreateListing.jsx:78-88 | `sale`/`rent` sets only `type` to the id. A feature checkbox sets only its flag to `checked`. Any other id writes only its own field: `parse(value)` for a number input, the raw string otherwise. |
| `CreateListing.ChangeKeepsInvariant` | client/src/pages/CreateListing.jsx:81-86 | An event from a rendered input keeps the record well shaped, keeps both prices numbers and leaves the images unchanged. |
| `CreateListing.Validate` | client/src/pages/CreateListing.jsx:90-104 | No images gives "At least one image is required." whatever the prices. Images with `regularPrice < discountPrice` (JavaScript `<`) give the price message. Otherwise the payload is the record plus `userRef`. |
| `CreateListing.EqualPricesAccepted` | client/src/pages/CreateListing.jsx:92-95 | With images present, equal regular and discount prices always pass. |
| `CreateListing.NumericPriceCheck` | client/src/pages/CreateListing.jsx:93 | On the page's own records the check is numeric: a listing passes exactly when it has images and discount <= regular. |
| `CreateListing.ErrorAfter` | client/src/pages/CreateListing.jsx:106-117 | After the request: no error when the reply's `success` is truthy. The reply's message when it is not. "Failed to create listing. Please try again." when the request threw. |
| `CreateListing.Saved` | client/src/pages/CreateListing.jsx:106 | The create request counts as saved when it was answered and `success` is truthy. |
| `CreateListing.CreateListingPage.constructor` | client/src/pages/CreateListing.jsx:7-26 | The page starts with no files, the initial record, no errors and nothing in flight. |
| `CreateListing.CreateListingPage.SelectFiles` | client/src/pages/CreateListing.jsx:241 | The selection replaces `files`. |
| `CreateListing.CreateListingPage.HandleChange` | client/src/pages/CreateListing.jsx:78-88 | The record becomes `Change` of the old record, and the page invariant holds. |
| `CreateListing.CreateListingPage.HandleImageSubmit` | client/src/pages/CreateListing.jsx:33-59 | The record becomes `AfterUpload` of the old one. A refused batch sets "You can only upload up to 6 images.". An accepted batch ends with `uploading` false, and with no error or "Image upload failed. Please try again.". |
| `CreateListing.CreateListingPage.HandleSubmit` | client/src/pages/CreateListing.jsx:90-118 | A refused record sets the check's message and sends nothing. An accepted one sends the payload of `Validate`, navigates exactly when the reply counts as saved, leaves `ErrorAfter` as the error and ends with `loading` false. |
| `UpdateListing.AfterUpload` | client/src/pages/UpdateListing.jsx:47-71 | The same as on the create page, with the guard written `files + urls < 7`. The old list is kept as a prefix, the new URLs follow in file order and the total is at most six. |
| `UpdateListing.AcceptsBatch` | client/src/pages/UpdateListing.jsx:48 | A batch passes the guard when it is non-empty and `files + urls < 7`. |
| `UpdateListing.Change` | client/src/pages/UpdateListing.jsx:82-111 | If no branch fires, nothing changes. Otherwise the last branch that fires decides. A number/text/textarea input writes the raw string to its id. A feature checkbox writes `checked`. `sale`/`rent` writes `type`. Each writes that one field only. |
| `UpdateListing.RenderedFiresOnce` | client/src/pages/UpdateListing.jsx:83-110 | For every rendered input exactly one of the three branches fires. |
| `UpdateListing.ChangeKeepsShape` | client/src/pages/UpdateListing.jsx:82-111 | A rendered event changes exactly one field: the id it names, or `type`. It keeps the record well shaped and leaves the images unchanged. |
| `UpdateListing.FiresType` | client/src/pages/UpdateListing.jsx:83 | The first `if` of `handleChange` fires on a `sale` or `rent` id. |
| `UpdateListing.FiresCheckbox` | client/src/pages/UpdateListing.jsx:90-94 | The second `if` fires on a `parking`, `furnished` or `offer` id. |
| `UpdateListing.FiresValue` | client/src/pages/UpdateListing.jsx:101-105 | The third `if` fires on a `number`, `text` or `textarea` input type. |
| `UpdateListing.Validate` | client/src/pages/UpdateListing.jsx:113-133 | No images gives "You must upload at least one image" first. Then `+regularPrice < +discountPrice` gives the price message, so equal prices pass. Otherwise the payload is the record plus `userRef`. |
| `UpdateListing.ErrorAfter` | client/src/pages/UpdateListing.jsx:136-146 | After the request: the reply's message when it says `success: false`. The thrown error's message when it threw. No error otherwise. |
| `UpdateListing.Saved` | client/src/pages/UpdateListing.jsx:138 | The update request counts as saved when it was answered and `success` is not exactly `false`. |
| `UpdateListing.LoadFailed` | client/src/pages/UpdateListing.jsx:37 | The fetched object is refused exactly when it has a `success` field equal to `false`. |
| `UpdateListing.UpdateListingPage.constructor` | client/src/pages/UpdateListing.jsx:7-26 | The page starts with no files, the initial record, no errors and nothing in flight. |
| `UpdateListing.UpdateListingPage.Load` | client/src/pages/UpdateListing.jsx:31-45 | The fetched object replaces the whole record, unless its `success` is `false`; then the record is unchanged. |
| `UpdateListing.UpdateListingPage.SelectFiles` | client/src/pages/UpdateListing.jsx:261 | The selection replaces `files`. |
| `UpdateListing.UpdateListingPage.HandleChange` | client/src/pages/UpdateListing.jsx:82-111 | The three independent `if`s over one snapshot leave exactly `Change` of the old record, and the record keeps its shape. |
| `UpdateListing.UpdateListingPage.HandleImageSubmit` | client/src/pages/UpdateListing.jsx:47-71 | The record becomes `AfterUpload` of the old one. A refused batch sets "You can only upload 6 images per listing". An accepted one ends with `uploading` false, and with no error or "Image upload failed.". |
| `UpdateListing.UpdateListingPage.HandleSubmit` | client/src/pages/UpdateListing.jsx:113-148 | A refused record sets the check's message and sends nothing. An accepted one sends the payload of `Validate`, navigates unless the reply says `success: false`, leaves `ErrorAfter` as the error and ends with `loading` false. |
| `PageComparison.GuardsAgree` | client/src/pages/UpdateListing.jsx:48 | `files + urls < 7` accepts exactly the batches that the create page's `files + urls <= 6` accepts. An empty selection is refused by both. |
| `PageComparison.UploadsAgree` | client/src/pages/UpdateListing.jsx:56-61 | Both pages' `AfterUpload` agree on every record and batch. The update page's `concat` is modelled by the same `AppendUrls` as the create page's spread, so the lemma rests on the two guards agreeing. |
| `PageComparison.ChangesAgreeOffNumberInputs` | client/src/pages/UpdateListing.jsx:82-111 | For every rendered input that is not a number input, both pages' change handlers build the same record. |
| `PageComparison.NumberInputsAgreeAsNumbers` | client/src/pages/UpdateListing.jsx:101-110 | On a number input the create page stores `Number(parse(v))` and the update page `Text(v)`. Both write the same field, nothing else differs, and both denote the same number. |
| `PageComparison.ChangesDifferOnOverlappingBranches` | client/src/pages/UpdateListing.jsx:83-110 | For any well-shaped record and any (unrendered) `sale`/`rent` event of a value-input type, the create page sets `type` to the id. The update page's value branch overrides its type branch: it writes the raw value under the id and leaves `type` as it was. |
| `PageComparison.StringOrderDiffersFromNumericOrder` | client/src/pages/UpdateListing.jsx:119 | An illustration of why line 119 coerces: compared as strings, "100" < "20"; compared as numbers after `+`, it is not. Neither page makes the string comparison on its own records. |
| `PageComparison.SavedReplies` | client/src/pages/UpdateListing.jsx:138-141 | On the same abstract reply, every reply the create page counts as saved the update page counts as saved too. The update page alone counts a reply as saved exactly when it was answered and its `success` is falsy but not `false`: absent, `0` or `""`. How each page's transport turns an HTTP answer into a reply differs as well (see Left out). |
| `PageComparison.CreateRun` | client/src/pages/CreateListing.jsx:33-88 | Any run of rendered edits and image batches keeps the create page's invariant: well shaped, numeric prices, at most six images. |
| `PageComparison.UpdateRun` | client/src/pages/UpdateListing.jsx:47-111 | Any run of rendered edits and image batches keeps the update page's record well shaped. |
| `PageComparison.RunKeepsCorrespondence` | client/src/pages/UpdateListing.jsx:82-111 | The same run on corresponding records leaves corresponding records. They have equal fields, or the create page's number equals the parse of the update page's string. |
| `PageComparison.ValidationsCorrespond` | client/src/pages/UpdateListing.jsx:113-120 | Corresponding records pass both submit checks together. They are refused for want of images together. |
| `PageComparison.SameListingsAccepted` | client/src/pages/UpdateListing.jsx:113-120 | After the same edits and image batches from the initial record, both pages hold the same images and accept exactly the same listings. |
| `PageComparison.UpdateRunKeepsImageBound` | client/src/pages/UpdateListing.jsx:48 | After any run of rendered edits and image batches from the initial record, the update page holds at most six images. |

## Left out

- HTTP calls (`axios.post`, `fetch` to the image host and the `/api/listing/*` endpoints) and response parsing are not modelled. They appear only as abstract results: a per-file `Upload` and a request `Reply`.
- HTTP status codes are not modelled, and the two pages map them onto `Reply` differently. On the create page `axios.post` rejects any non-2xx status, so a `{success: false, message}` body sent with an error status arrives as `Threw` and shows the generic create-failed message. On the update page `fetch` resolves for any status, so the same body arrives as `Replied` and shows the server's message. Network failures, a body that is not JSON and a `null` body arrive as `Threw` there. The comparison lemmas take both pages' replies as the same abstract `Reply`.
- `navigate` is not modelled. It is reduced to the `navigated` result of the submit handlers; the `/listing/<id>` path is not built.
- The image host's form data and presets are not modelled. `storeImage` is the abstract `store` step. The create page's catch-and-rethrow inside `storeImage` only changes the thrown error, which the handler replaces with its own message.
- The concurrency of `Promise.all` is not modelled. The uploads are an all-or-nothing sequence in file order.
- React rendering, hooks and `useEffect` are left out. The load step is the `Load` method, and the listing id in the fetch URL is not modelled.
- The batching of `setState` is left out. For the three `setFormData` calls in one update-page change it is modelled as "the last call wins".
- Stale closures are left out. Each handler runs to completion with no event in between, so edits made while an upload or request is in flight are not modelled. The intermediate `uploading`/`loading` true states are not observable, and neither is the `disabled={uploading}` button.
- JavaScript numbers are left out. `+value` is the abstract integer `parse`, so `NaN`, `""`, fractions and IEEE-754 rounding are not modelled.
- `ListingForm.StrLess`: orders characters by Dafny `char` (Unicode scalar values), not UTF-16 code units, so strings with characters outside the Basic Multilingual Plane may order differently from JavaScript.
- `CreateListing.CreateListingPage.HandleChange` and `UpdateListing.UpdateListingPage.HandleChange` require the event to come from an input the page renders. Those are the handler's only callers. The pure `Change` functions take any event.
- `UpdateListing.UpdateListingPage.Load` requires the fetched object to be either marked `success: false` or a listing with every field of the form. Server data that lacks a form field, or holds a value of another kind, is not modelled, because the model's record invariant (`WellShaped`) requires every field. In the source such data mostly loads and works. Only a missing `imageUrls` throws: at UpdateListing.jsx:48 when files are selected, and at UpdateListing.jsx:116, where the catch sets `error`.
- Error fields hold `false` or a message, modelled as `Option<string>`. A non-string `message` in a reply is modelled as no message.
- A missing signed-in user (`currentUser` null) is not modelled. The user id is a parameter.
- `console.log` calls are left out.
- client/src/components/OAuth.jsx is not part of this model: it is a popup sign-in flow followed by a POST, all foreign calls.
- client/src/firebase.js is not part of this model: it is SDK configuration only.
- api/models/user.model.js is not part of this model: it is a declarative schema whose uniqueness and defaults the database library enforces.
