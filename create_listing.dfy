/** The create-listing page: its form state, the field-change handler, the
    image-batch upload and the submit check. */
module CreateListing {
  import opened ListingForm

  const UploadLimitMessage := "You can only upload up to 6 images."
  const UploadFailedMessage := "Image upload failed. Please try again."
  const NoImageMessage := "At least one image is required."
  const PriceMessage := "Discount price cannot exceed regular price."
  const CreateFailedMessage := "Failed to create listing. Please try again."

  /** The guard of `handleImageSubmit`: a non-empty selection that keeps the
      listing within six images. */
  predicate AcceptsBatch(fileCount: nat, urlCount: nat) {
    fileCount > 0 && fileCount + urlCount <= MaxImages
  }

  /** The record after `handleImageSubmit`: the uploaded URLs appended in file
      order when the selection passes the guard and every upload succeeds,
      otherwise the record unchanged. */
  function AfterUpload(f: Form, files: seq<ImageFile>, store: ImageFile -> Upload): (r: Form)
    requires WellShaped(f)
    ensures WellShaped(r) && AgreeExcept(f, r, "imageUrls")
    ensures ImageUrls(f) <= ImageUrls(r)
    ensures AcceptsBatch(|files|, |ImageUrls(f)|) && UploadBatch(files, store).Some? ==>
              && |ImageUrls(r)| == |ImageUrls(f)| + |files| <= MaxImages
              && (forall i :: 0 <= i < |files| ==> ImageUrls(r)[|ImageUrls(f)| + i] == store(files[i]).url)
    ensures !(AcceptsBatch(|files|, |ImageUrls(f)|) && UploadBatch(files, store).Some?) ==> r == f
  {
    if AcceptsBatch(|files|, |ImageUrls(f)|) then
      match UploadBatch(files, store)
      case Some(urls) => AppendUrls(f, urls)
      case None => f
    else f
  }

  predicate PricesAreNumbers(f: Form) {
    && "regularPrice" in f && f["regularPrice"].Number?
    && "discountPrice" in f && f["discountPrice"].Number?
  }

  /** What holds of the page's record between events: it has the initial
      shape, both prices are numbers and there are at most six images. */
  predicate FormInvariant(f: Form) {
    WellShaped(f) && PricesAreNumbers(f) && |ImageUrls(f)| <= MaxImages
  }

  /** `handleChange`: a type radio sets `type`, a feature checkbox sets its
      flag, any other input writes its own field, coerced to a number when it
      is a number input. */
  function Change(f: Form, e: InputEvent, parse: NumberParse): (r: Form)
    ensures IsTypeChoice(e.id) ==>
              "type" in r && r["type"] == Text(e.id) && AgreeExcept(f, r, "type")
    ensures !IsTypeChoice(e.id) && IsCheckbox(e.id) ==>
              e.id in r && r[e.id] == Bool(e.checked) && AgreeExcept(f, r, e.id)
    ensures !IsTypeChoice(e.id) && !IsCheckbox(e.id) && e.kind == "number" ==>
              e.id in r && r[e.id] == Number(parse(e.value)) && AgreeExcept(f, r, e.id)
    ensures !IsTypeChoice(e.id) && !IsCheckbox(e.id) && e.kind != "number" ==>
              e.id in r && r[e.id] == Text(e.value) && AgreeExcept(f, r, e.id)
  {
    if IsTypeChoice(e.id) then f["type" := Text(e.id)]
    else if IsCheckbox(e.id) then f[e.id := Bool(e.checked)]
    else f[e.id := if e.kind == "number" then Number(parse(e.value)) else Text(e.value)]
  }

  /** An event from any rendered input keeps the record's invariant and leaves
      the image list alone. */
  lemma ChangeKeepsInvariant(f: Form, e: InputEvent, parse: NumberParse)
    requires FormInvariant(f) && IsRendered(e)
    ensures FormInvariant(Change(f, e, parse))
    ensures ImageUrls(Change(f, e, parse)) == ImageUrls(f)
  {
    RenderedInputSorts(e);
  }

  /** `handleSubmit`'s checks: no images first, then a discount above the
      regular price; otherwise the payload is the record with `userRef`. */
  function Validate(f: Form, parse: NumberParse, userId: string): (r: Outcome)
    requires WellShaped(f)
    ensures ImageUrls(f) == [] ==> r == Rejected(NoImageMessage)
    ensures ImageUrls(f) != [] && JsLess(f["regularPrice"], f["discountPrice"], parse) ==>
              r == Rejected(PriceMessage)
    ensures r.Accepted? <==>
              ImageUrls(f) != [] && !JsLess(f["regularPrice"], f["discountPrice"], parse)
    ensures r.Accepted? ==> r.payload == WithUserRef(f, userId)
  {
    if |ImageUrls(f)| < 1 then Rejected(NoImageMessage)
    else if JsLess(f["regularPrice"], f["discountPrice"], parse) then Rejected(PriceMessage)
    else Accepted(WithUserRef(f, userId))
  }

  /** Equal prices pass the price check, whatever their representation. */
  lemma EqualPricesAccepted(f: Form, parse: NumberParse, userId: string)
    requires WellShaped(f) && ImageUrls(f) != []
    requires f["regularPrice"] == f["discountPrice"]
    ensures Validate(f, parse, userId) == Accepted(WithUserRef(f, userId))
  {
    JsLessIrreflexive(f["regularPrice"], parse);
  }

  /** On the page's own records the price check is a numeric comparison. */
  lemma NumericPriceCheck(f: Form, parse: NumberParse, userId: string)
    requires FormInvariant(f)
    ensures Validate(f, parse, userId).Accepted? <==>
              ImageUrls(f) != [] && f["discountPrice"].n <= f["regularPrice"].n
  {
  }

  /** The create request counts as saved only when the reply's `success` is truthy. */
  predicate Saved(reply: Reply) {
    reply.Replied? && Truthy(reply.success)
  }

  /** The error shown once the create request has been answered. */
  function ErrorAfter(reply: Reply): (r: Option<string>)
    ensures Saved(reply) ==> r == None
    ensures reply.Threw? ==> r == Some(CreateFailedMessage)
    ensures reply.Replied? && !Saved(reply) ==> r == reply.message
  {
    match reply
    case Threw(_) => Some(CreateFailedMessage)
    case Replied(success, message) => if Truthy(success) then None else message
  }

  class CreateListingPage {
    var files: seq<ImageFile>
    var formData: Form
    var imageUploadError: Option<string>
    var uploading: bool
    var error: Option<string>
    var loading: bool

    /** Handlers run to completion, so between events nothing is in flight. */
    predicate Valid()
      reads this
    {
      FormInvariant(formData) && !uploading && !loading
    }

    constructor ()
      ensures Valid()
      ensures files == [] && formData == InitialForm()
      ensures imageUploadError == None && error == None
    {
      files := [];
      formData := InitialForm();
      imageUploadError := None;
      uploading := false;
      error := None;
      loading := false;
    }

    /** The file input's `onChange`. */
    method SelectFiles(selection: seq<ImageFile>)
      requires Valid()
      modifies this`files
      ensures Valid() && files == selection
    {
      files := selection;
    }

    method HandleChange(e: InputEvent, parse: NumberParse)
      requires Valid() && IsRendered(e)
      modifies this`formData
      ensures Valid()
      ensures formData == Change(old(formData), e, parse)
    {
      ChangeKeepsInvariant(formData, e, parse);
      formData := Change(formData, e, parse);
    }

    /** `handleImageSubmit`: one upload per selected file, joined all-or-nothing. */
    method HandleImageSubmit(store: ImageFile -> Upload)
      requires Valid()
      modifies this`formData, this`imageUploadError, this`uploading
      ensures Valid()
      ensures formData == AfterUpload(old(formData), files, store)
      ensures !AcceptsBatch(|files|, |ImageUrls(old(formData))|) ==>
                imageUploadError == Some(UploadLimitMessage) && uploading == old(uploading)
      ensures AcceptsBatch(|files|, |ImageUrls(old(formData))|) ==>
                !uploading &&
                imageUploadError == if UploadBatch(files, store).Some? then None else Some(UploadFailedMessage)
    {
      if |files| > 0 && |files| + |ImageUrls(formData)| <= MaxImages {
        uploading := true;
        imageUploadError := None;
        var promises: seq<Upload> := [];
        for i := 0 to |files|
          invariant |promises| == i
          invariant forall j :: 0 <= j < i ==> promises[j] == store(files[j])
        {
          promises := promises + [store(files[i])];
        }
        ghost var selection := files;
        assert promises == seq(|selection|, i requires 0 <= i < |selection| => store(selection[i]));
        var joined := UploadAll(promises);
        match joined {
          case Some(urls) =>
            formData := AppendUrls(formData, urls);
            imageUploadError := None;
          case None =>
            imageUploadError := Some(UploadFailedMessage);
        }
        uploading := false;
      } else {
        imageUploadError := Some(UploadLimitMessage);
      }
    }

    /** `handleSubmit`: returns the payload posted, if any, and whether the
        page moved on to the new listing. */
    method HandleSubmit(parse: NumberParse, userId: string, reply: Reply)
      returns (sent: Option<Form>, navigated: bool)
      requires Valid()
      modifies this`error, this`loading
      ensures Valid()
      ensures Validate(formData, parse, userId).Rejected? ==>
                sent == None && !navigated &&
                error == Some(Validate(formData, parse, userId).message)
      ensures Validate(formData, parse, userId).Accepted? ==>
                sent == Some(Validate(formData, parse, userId).payload) &&
                navigated == Saved(reply) && error == ErrorAfter(reply)
    {
      if |ImageUrls(formData)| < 1 {
        error := Some(NoImageMessage);
        return None, false;
      }
      if JsLess(formData["regularPrice"], formData["discountPrice"], parse) {
        error := Some(PriceMessage);
        return None, false;
      }
      loading := true;
      error := None;
      sent := Some(WithUserRef(formData, userId));
      match reply {
        case Threw(_) =>
          error := Some(CreateFailedMessage);
          navigated := false;
        case Replied(success, message) =>
          if !Truthy(success) {
            error := message;
            loading := false;
            navigated := false;
          } else {
            navigated := true;
          }
      }
      loading := false;
    }
  }
}
