/** The update-listing page: loading the stored listing into the form, the
    field-change handler, the image-batch upload and the submit check. */
module UpdateListing {
  import opened ListingForm

  const UploadLimitMessage := "You can only upload 6 images per listing"
  const UploadFailedMessage := "Image upload failed."
  const NoImageMessage := "You must upload at least one image"
  const PriceMessage := "Discount price cannot be higher than regular price"

  /** The guard of `handleImageSubmit`, written with `< 7`. */
  predicate AcceptsBatch(fileCount: nat, urlCount: nat) {
    fileCount > 0 && fileCount + urlCount < 7
  }

  /** The record after `handleImageSubmit`: the uploaded URLs appended in file
      order when the selection passes the guard and every upload succeeds,
      otherwise the record unchanged. */
  function AfterUpload(f: Form, files: seq<ImageFile>, store: ImageFile -> Upload): (r: Form)
    requires WellShaped(f)
    ensures WellShaped(r) && AgreeExcept(f, r, "imageUrls")
    ensures ImageUrls(f) <= ImageUrls(r)
    ensures AcceptsBatch(|files|, |ImageUrls(f)|) && UploadBatch(files, store).Some? ==>
              && |ImageUrls(r)| == |ImageUrls(f)| + |files| <= MaxImages
              && (forall i :: 0 <= i < |files| ==> ImageUrls(r)[|ImageUrls(f)| + i] == store(files[i]).url)
    ensures !(AcceptsBatch(|files|, |ImageUrls(f)|) && UploadBatch(files, store).Some?) ==> r == f
  {
    if AcceptsBatch(|files|, |ImageUrls(f)|) then
      match UploadBatch(files, store)
      case Some(urls) => AppendUrls(f, urls)
      case None => f
    else f
  }

  /** The three conditions of `handleChange`, tested one after the other. */
  predicate FiresType(e: InputEvent) {
    IsTypeChoice(e.id)
  }

  predicate FiresCheckbox(e: InputEvent) {
    IsCheckbox(e.id)
  }

  predicate FiresValue(e: InputEvent) {
    IsValueInput(e.kind)
  }

  /** The record `handleChange` leaves: every branch that fires rebuilds the
      record from the same `formData`, so the last branch that fires decides;
      the value branch stores the raw string. */
  function Change(f: Form, e: InputEvent): (r: Form)
    ensures !FiresType(e) && !FiresCheckbox(e) && !FiresValue(e) ==> r == f
    ensures FiresValue(e) ==>
              e.id in r && r[e.id] == Text(e.value) && AgreeExcept(f, r, e.id)
    ensures !FiresValue(e) && FiresCheckbox(e) ==>
              e.id in r && r[e.id] == Bool(e.checked) && AgreeExcept(f, r, e.id)
    ensures !FiresValue(e) && !FiresCheckbox(e) && FiresType(e) ==>
              "type" in r && r["type"] == Text(e.id) && AgreeExcept(f, r, "type")
  {
    if FiresValue(e) then f[e.id := Text(e.value)]
    else if FiresCheckbox(e) then f[e.id := Bool(e.checked)]
    else if FiresType(e) then f["type" := Text(e.id)]
    else f
  }

  /** For every input the page renders exactly one of the three branches fires. */
  lemma RenderedFiresOnce(e: InputEvent)
    requires IsRendered(e)
    ensures (if FiresType(e) then 1 else 0) + (if FiresCheckbox(e) then 1 else 0)
            + (if FiresValue(e) then 1 else 0) == 1
  {
    RenderedInputSorts(e);
  }

  /** An event from any rendered input writes exactly the field it names (or
      `type`) and keeps the record's shape and its images. */
  lemma ChangeKeepsShape(f: Form, e: InputEvent)
    requires WellShaped(f) && IsRendered(e)
    ensures WellShaped(Change(f, e))
    ensures ImageUrls(Change(f, e)) == ImageUrls(f)
    ensures AgreeExcept(f, Change(f, e), if FiresType(e) then "type" else e.id)
  {
    RenderedInputSorts(e);
  }

  /** The fetched listing replaces the record unless the reply is marked `success: false`. */
  predicate LoadFailed(data: Form) {
    "success" in data && data["success"] == Bool(false)
  }

  /** `handleSubmit`'s checks: no images first, then the prices compared as
      numbers; otherwise the payload is the record with `userRef`. */
  function Validate(f: Form, parse: NumberParse, userId: string): (r: Outcome)
    requires WellShaped(f)
    ensures ImageUrls(f) == [] ==> r == Rejected(NoImageMessage)
    ensures ImageUrls(f) != [] &&
            ToNumber(f["regularPrice"], parse) < ToNumber(f["discountPrice"], parse) ==>
              r == Rejected(PriceMessage)
    ensures r.Accepted? <==>
              ImageUrls(f) != [] &&
              ToNumber(f["discountPrice"], parse) <= ToNumber(f["regularPrice"], parse)
    ensures r.Accepted? ==> r.payload == WithUserRef(f, userId)
  {
    if |ImageUrls(f)| < 1 then Rejected(NoImageMessage)
    else if ToNumber(f["regularPrice"], parse) < ToNumber(f["discountPrice"], parse) then
      Rejected(PriceMessage)
    else Accepted(WithUserRef(f, userId))
  }

  /** The update request fails only when the reply says `success: false`. */
  predicate Saved(reply: Reply) {
    reply.Replied? && reply.success != Some(Bool(false))
  }

  /** The error shown once the update request has been answered. */
  function ErrorAfter(reply: Reply): (r: Option<string>)
    ensures Saved(reply) ==> r == None
    ensures reply.Threw? ==> r == Some(reply.error)
    ensures reply.Replied? && !Saved(reply) ==> r == reply.message
  {
    match reply
    case Threw(message) => Some(message)
    case Replied(success, message) => if success == Some(Bool(false)) then message else None
  }

  class UpdateListingPage {
    var files: seq<ImageFile>
    var formData: Form
    var imageUploadError: Option<string>
    var uploading: bool
    var error: Option<string>
    var loading: bool

    /** Handlers run to completion, so between events nothing is in flight. */
    predicate Valid()
      reads this
    {
      WellShaped(formData) && !uploading && !loading
    }

    constructor ()
      ensures Valid()
      ensures files == [] && formData == InitialForm()
      ensures imageUploadError == None && error == None
    {
      files := [];
      formData := InitialForm();
      imageUploadError := None;
      uploading := false;
      error := None;
      loading := false;
    }

    /** The fetch of the listing being edited; `data` is the parsed reply. */
    method Load(data: Form)
      requires Valid()
      requires LoadFailed(data) || WellShaped(data)
      modifies this`formData
      ensures Valid()
      ensures formData == if LoadFailed(data) then old(formData) else data
    {
      if "success" in data && data["success"] == Bool(false) {
        return;
      }
      formData := data;
    }

    /** The file input's `onChange`. */
    method SelectFiles(selection: seq<ImageFile>)
      requires Valid()
      modifies this`files
      ensures Valid() && files == selection
    {
      files := selection;
    }

    /** `handleChange`: three independent tests, each setting the record to a
        copy of the same `formData`. */
    method HandleChange(e: InputEvent)
      requires Valid() && IsRendered(e)
      modifies this`formData
      ensures Valid()
      ensures formData == Change(old(formData), e)
    {
      var next := formData;
      if e.id == "sale" || e.id == "rent" {
        next := formData["type" := Text(e.id)];
      }
      if e.id == "parking" || e.id == "furnished" || e.id == "offer" {
        next := formData[e.id := Bool(e.checked)];
      }
      if e.kind == "number" || e.kind == "text" || e.kind == "textarea" {
        next := formData[e.id := Text(e.value)];
      }
      ChangeKeepsShape(formData, e);
      formData := next;
    }

    /** `handleImageSubmit`: one upload per selected file, joined all-or-nothing. */
    method HandleImageSubmit(store: ImageFile -> Upload)
      requires Valid()
      modifies this`formData, this`imageUploadError, this`uploading
      ensures Valid()
      ensures formData == AfterUpload(old(formData), files, store)
      ensures !AcceptsBatch(|files|, |ImageUrls(old(formData))|) ==>
                imageUploadError == Some(UploadLimitMessage) && uploading == old(uploading)
      ensures AcceptsBatch(|files|, |ImageUrls(old(formData))|) ==>
                !uploading &&
                imageUploadError == if UploadBatch(files, store).Some? then None else Some(UploadFailedMessage)
    {
      if |files| > 0 && |files| + |ImageUrls(formData)| < 7 {
        uploading := true;
        imageUploadError := None;
        var promises: seq<Upload> := [];
        for i := 0 to |files|
          invariant |promises| == i
          invariant forall j :: 0 <= j < i ==> promises[j] == store(files[j])
        {
          promises := promises + [store(files[i])];
        }
        ghost var selection := files;
        assert promises == seq(|selection|, i requires 0 <= i < |selection| => store(selection[i]));
        var joined := UploadAll(promises);
        match joined {
          case Some(urls) =>
            formData := AppendUrls(formData, urls);
            imageUploadError := None;
          case None =>
            imageUploadError := Some(UploadFailedMessage);
        }
        uploading := false;
      } else {
        imageUploadError := Some(UploadLimitMessage);
      }
    }

    /** `handleSubmit`: returns the payload sent, if any, and whether the page
        moved on to the listing. */
    method HandleSubmit(parse: NumberParse, userId: string, reply: Reply)
      returns (sent: Option<Form>, navigated: bool)
      requires Valid()
      modifies this`error, this`loading
      ensures Valid()
      ensures Validate(formData, parse, userId).Rejected? ==>
                sent == None && !navigated &&
                error == Some(Validate(formData, parse, userId).message)
      ensures Validate(formData, parse, userId).Accepted? ==>
                sent == Some(Validate(formData, parse, userId).payload) &&
                navigated == Saved(reply) && error == ErrorAfter(reply)
    {
      if |ImageUrls(formData)| < 1 {
        error := Some(NoImageMessage);
        return None, false;
      }
      if ToNumber(formData["regularPrice"], parse) < ToNumber(formData["discountPrice"], parse) {
        error := Some(PriceMessage);
        return None, false;
      }
      loading := true;
      error := None;
      sent := Some(WithUserRef(formData, userId));
      match reply {
        case Threw(message) =>
          error := Some(message);
          loading := false;
          navigated := false;
        case Replied(success, message) =>
          loading := false;
          if success == Some(Bool(false)) {
            error := message;
            navigated := false;
          } else {
            navigated := true;
          }
      }
    }
  }
}
