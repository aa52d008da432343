/** How the create and update pages relate: where their handlers agree, and
    the inputs on which they differ. */
module PageComparison {
  import opened ListingForm
  import CreateListing
  import UpdateListing

  /** `n + m <= 6` and `n + m < 7` accept the same batches. */
  lemma GuardsAgree(fileCount: nat, urlCount: nat)
    ensures CreateListing.AcceptsBatch(fileCount, urlCount) == UpdateListing.AcceptsBatch(fileCount, urlCount)
    ensures fileCount == 0 ==> !CreateListing.AcceptsBatch(fileCount, urlCount)
  {
  }

  /** Both pages leave the same record after the same image batch. */
  lemma UploadsAgree(f: Form, files: seq<ImageFile>, store: ImageFile -> Upload)
    requires WellShaped(f)
    ensures CreateListing.AfterUpload(f, files, store) == UpdateListing.AfterUpload(f, files, store)
  {
  }

  /** On rendered inputs other than number inputs the two change handlers
      produce the same record. */
  lemma ChangesAgreeOffNumberInputs(f: Form, e: InputEvent, parse: NumberParse)
    requires IsRendered(e) && e.kind != "number"
    ensures CreateListing.Change(f, e, parse) == UpdateListing.Change(f, e)
  {
    RenderedInputSorts(e);
  }

  /** On a number input the create page stores the coerced number and the
      update page the raw string; both write the same field and both denote
      the same number. */
  lemma NumberInputsAgreeAsNumbers(f: Form, e: InputEvent, parse: NumberParse)
    requires IsRendered(e) && e.kind == "number"
    ensures var c, u := CreateListing.Change(f, e, parse), UpdateListing.Change(f, e);
            && c.Keys == u.Keys && e.id in c && e.id in u
            && c[e.id] == Number(parse(e.value)) && u[e.id] == Text(e.value)
            && ToNumber(c[e.id], parse) == ToNumber(u[e.id], parse)
            && (forall k :: k in c && k != e.id ==> c[k] == u[k])
  {
    RenderedInputSorts(e);
  }

  /** A `sale` or `rent` input with a value-input type is not rendered, but if
      it were the two pages would diverge: the create page sets `type`, while on
      the update page the later value branch overwrites the type branch, so
      `type` keeps its old value and the field named by the id is written. */
  lemma ChangesDifferOnOverlappingBranches(f: Form, e: InputEvent, parse: NumberParse)
    requires WellShaped(f) && IsTypeChoice(e.id) && IsValueInput(e.kind)
    ensures CreateListing.Change(f, e, parse)["type"] == Text(e.id)
    ensures UpdateListing.Change(f, e) == f[e.id := Text(e.value)]
    ensures UpdateListing.Change(f, e)["type"] == f["type"]
  {
  }

  /** An illustration of why the update page coerces before comparing: its
      prices may be raw strings, and compared as strings `"100"` is below
      `"20"`, while after `+` it is not. */
  lemma StringOrderDiffersFromNumericOrder(parse: NumberParse)
    requires parse("100") == 100 && parse("20") == 20
    ensures JsLess(Text("100"), Text("20"), parse)
    ensures !(ToNumber(Text("100"), parse) < ToNumber(Text("20"), parse))
  {
  }

  /** Every reply the create page treats as saved the update page treats as
      saved too. The update page alone saves exactly the answered replies whose
      `success` is falsy without being `false`: absent, `0`, `""`. */
  lemma SavedReplies(reply: Reply)
    ensures CreateListing.Saved(reply) ==> UpdateListing.Saved(reply)
    ensures UpdateListing.Saved(reply) && !CreateListing.Saved(reply) <==>
              reply.Replied? && !Truthy(reply.success) && reply.success != Some(Bool(false))
  {
  }

  // ---------------------------------------------------------------------------
  // Running the same interaction on both pages

  /** One user action: an edit through an input, or an image batch uploaded. */
  datatype Step = Edit(e: InputEvent) | AddImages(files: seq<ImageFile>, store: ImageFile -> Upload)

  predicate RenderedSteps(steps: seq<Step>) {
    forall i :: 0 <= i < |steps| && steps[i].Edit? ==> IsRendered(steps[i].e)
  }

  function CreateStep(f: Form, s: Step, parse: NumberParse): (r: Form)
    requires CreateListing.FormInvariant(f)
    requires s.Edit? ==> IsRendered(s.e)
    ensures CreateListing.FormInvariant(r)
  {
    match s
    case Edit(e) =>
      CreateListing.ChangeKeepsInvariant(f, e, parse);
      CreateListing.Change(f, e, parse)
    case AddImages(files, store) => CreateListing.AfterUpload(f, files, store)
  }

  function UpdateStep(f: Form, s: Step): (r: Form)
    requires WellShaped(f)
    requires s.Edit? ==> IsRendered(s.e)
    ensures WellShaped(r)
  {
    match s
    case Edit(e) =>
      UpdateListing.ChangeKeepsShape(f, e);
      UpdateListing.Change(f, e)
    case AddImages(files, store) => UpdateListing.AfterUpload(f, files, store)
  }

  /** The create page's record after a run of steps; it keeps the page's invariant. */
  function CreateRun(f: Form, steps: seq<Step>, parse: NumberParse): (r: Form)
    requires CreateListing.FormInvariant(f) && RenderedSteps(steps)
    ensures CreateListing.FormInvariant(r)
    decreases |steps|
  {
    if steps == [] then f
    else CreateRun(CreateStep(f, steps[0], parse), steps[1..], parse)
  }

  /** The update page's record after a run of steps; it keeps the record's shape. */
  function UpdateRun(f: Form, steps: seq<Step>): (r: Form)
    requires WellShaped(f) && RenderedSteps(steps)
    ensures WellShaped(r)
    decreases |steps|
  {
    if steps == [] then f
    else UpdateRun(UpdateStep(f, steps[0]), steps[1..])
  }

  /** A field of the create page's record against the same field on the update
      page: equal, or the number the update page's raw string stands for. */
  predicate SameField(c: Value, u: Value, parse: NumberParse) {
    c == u || (c.Number? && u.Text? && c.n == parse(u.s))
  }

  /** The two pages' records hold the same listing. */
  predicate Corresponds(c: Form, u: Form, parse: NumberParse) {
    && CreateListing.FormInvariant(c) && WellShaped(u)
    && c.Keys == u.Keys
    && (forall k :: k in c && k in u ==> SameField(c[k], u[k], parse))
  }

  lemma EditKeepsCorrespondence(c: Form, u: Form, e: InputEvent, parse: NumberParse)
    requires Corresponds(c, u, parse) && IsRendered(e)
    ensures Corresponds(CreateListing.Change(c, e, parse), UpdateListing.Change(u, e), parse)
  {
    RenderedInputSorts(e);
    CreateListing.ChangeKeepsInvariant(c, e, parse);
    UpdateListing.ChangeKeepsShape(u, e);
    var key := if IsTypeChoice(e.id) then "type" else e.id;
    var c', u' := CreateListing.Change(c, e, parse), UpdateListing.Change(u, e);
    assert c'.Keys == c.Keys + {key} && u'.Keys == u.Keys + {key};
    forall k | k in c' && k in u'
      ensures SameField(c'[k], u'[k], parse)
    {
      if k != key {
        assert c'[k] == c[k] && u'[k] == u[k];
      }
    }
  }

  lemma UploadKeepsCorrespondence(c: Form, u: Form, files: seq<ImageFile>, store: ImageFile -> Upload, parse: NumberParse)
    requires Corresponds(c, u, parse)
    ensures Corresponds(CreateListing.AfterUpload(c, files, store), UpdateListing.AfterUpload(u, files, store), parse)
  {
    assert c["imageUrls"] == u["imageUrls"];
    var c', u' := CreateListing.AfterUpload(c, files, store), UpdateListing.AfterUpload(u, files, store);
    assert c'["imageUrls"] == u'["imageUrls"];
    forall k | k in c' && k in u'
      ensures SameField(c'[k], u'[k], parse)
    {
      if k != "imageUrls" {
        assert c'[k] == c[k] && u'[k] == u[k];
      }
    }
  }

  lemma StepKeepsCorrespondence(c: Form, u: Form, s: Step, parse: NumberParse)
    requires Corresponds(c, u, parse)
    requires s.Edit? ==> IsRendered(s.e)
    ensures Corresponds(CreateStep(c, s, parse), UpdateStep(u, s), parse)
  {
    match s
    case Edit(e) => EditKeepsCorrespondence(c, u, e, parse);
    case AddImages(files, store) => UploadKeepsCorrespondence(c, u, files, store, parse);
  }

  lemma {:induction false} RunKeepsCorrespondence(c: Form, u: Form, steps: seq<Step>, parse: NumberParse)
    requires Corresponds(c, u, parse) && RenderedSteps(steps)
    ensures Corresponds(CreateRun(c, steps, parse), UpdateRun(u, steps), parse)
    decreases |steps|
  {
    if steps != [] {
      StepKeepsCorrespondence(c, u, steps[0], parse);
      assert RenderedSteps(steps[1..]) by {
        forall i | 0 <= i < |steps[1..]| && steps[1..][i].Edit?
          ensures IsRendered(steps[1..][i].e)
        {
          assert steps[1..][i] == steps[i + 1];
        }
      }
      RunKeepsCorrespondence(CreateStep(c, steps[0], parse), UpdateStep(u, steps[0]), steps[1..], parse);
    }
  }

  /** Corresponding records pass or fail the two submit checks together, for
      the same reason. */
  lemma ValidationsCorrespond(c: Form, u: Form, parse: NumberParse, userId: string)
    requires Corresponds(c, u, parse)
    ensures CreateListing.Validate(c, parse, userId).Accepted? == UpdateListing.Validate(u, parse, userId).Accepted?
    ensures CreateListing.Validate(c, parse, userId) == Rejected(CreateListing.NoImageMessage) <==>
            UpdateListing.Validate(u, parse, userId) == Rejected(UpdateListing.NoImageMessage)
  {
    assert c["imageUrls"] == u["imageUrls"];
    assert SameField(c["regularPrice"], u["regularPrice"], parse);
    assert SameField(c["discountPrice"], u["discountPrice"], parse);
  }

  /** After the same edits and image batches from the initial record, the two
      pages accept exactly the same listings, and they refuse for want of
      images in exactly the same cases. */
  lemma SameListingsAccepted(steps: seq<Step>, parse: NumberParse, userId: string)
    requires RenderedSteps(steps)
    ensures var c, u := CreateRun(InitialForm(), steps, parse), UpdateRun(InitialForm(), steps);
            && CreateListing.Validate(c, parse, userId).Accepted? == UpdateListing.Validate(u, parse, userId).Accepted?
            && ImageUrls(c) == ImageUrls(u)
  {
    RunKeepsCorrespondence(InitialForm(), InitialForm(), steps, parse);
    var c, u := CreateRun(InitialForm(), steps, parse), UpdateRun(InitialForm(), steps);
    ValidationsCorrespond(c, u, parse, userId);
    assert c["imageUrls"] == u["imageUrls"];
  }

  /** The update page's guard keeps a listing within six images too: after any
      run of edits and image batches from the initial record. */
  lemma UpdateRunKeepsImageBound(steps: seq<Step>)
    requires RenderedSteps(steps)
    ensures |ImageUrls(UpdateRun(InitialForm(), steps))| <= MaxImages
  {
    var parse: NumberParse := s => 0;
    RunKeepsCorrespondence(InitialForm(), InitialForm(), steps, parse);
  }
}
