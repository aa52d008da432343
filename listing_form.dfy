/** The listing form record shared by the create and update pages, the input
    events that edit it, the image-upload batch and the JavaScript value
    semantics the two pages rely on. */
module ListingForm {

  datatype Option<T> = None | Some(value: T)

  /** A JavaScript value as the form record holds it. */
  datatype Value = Text(s: string) | Number(n: int) | Bool(b: bool) | Urls(urls: seq<string>)

  /** The form record is a plain JavaScript object: a map from field name to value.
      `{...f, [k]: v}` is `f[k := v]`. */
  type Form = map<string, Value>

  /** The unary `+` coercion of a string to a number, left abstract. */
  type NumberParse = string -> int

  /** Both pages cap a listing at six images. */
  const MaxImages: nat := 6

  /** Fields holding a string or a number. */
  const ScalarFields: set<string> :=
    {"name", "description", "address", "type", "bedrooms", "bathrooms", "regularPrice", "discountPrice"}

  /** Fields holding a boolean. */
  const FlagFields: set<string> := {"offer", "parking", "furnished"}

  predicate IsScalar(v: Value) {
    v.Text? || v.Number?
  }

  /** Every field of the initial record is present and holds a value of its kind. */
  predicate WellShaped(f: Form) {
    && "imageUrls" in f && f["imageUrls"].Urls?
    && (forall k :: k in ScalarFields ==> k in f && IsScalar(f[k]))
    && (forall k :: k in FlagFields ==> k in f && f[k].Bool?)
  }

  function ImageUrls(f: Form): seq<string>
    requires WellShaped(f)
  {
    f["imageUrls"].urls
  }

  /** `g` is `f` with at most the field `key` written. */
  predicate AgreeExcept(f: Form, g: Form, key: string) {
    && f.Keys - {key} == g.Keys - {key}
    && (forall k :: k in f && k in g && k != key ==> g[k] == f[k])
  }

  /** The record both pages start from (CreateListing.jsx and UpdateListing.jsx, lines 8-21). */
  function InitialForm(): (f: Form)
    ensures WellShaped(f)
    ensures ImageUrls(f) == []
    ensures f["regularPrice"] == Number(50) && f["discountPrice"] == Number(0)
    ensures f["type"] == Text("rent")
  {
    var f := map[
      "imageUrls" := Urls([]),
      "name" := Text(""),
      "description" := Text(""),
      "address" := Text(""),
      "type" := Text("rent"),
      "bedrooms" := Number(1),
      "bathrooms" := Number(1),
      "regularPrice" := Number(50),
      "discountPrice" := Number(0),
      "offer" := Bool(false),
      "parking" := Bool(false),
      "furnished" := Bool(false)
    ];
    assert forall k :: k in ScalarFields ==> k in f && IsScalar(f[k]);
    assert forall k :: k in FlagFields ==> k in f && f[k].Bool?;
    f
  }

  // ---------------------------------------------------------------------------
  // Input events

  /** What a change handler reads from `e.target`. */
  datatype InputEvent = InputEvent(id: string, kind: string, value: string, checked: bool)

  predicate IsTypeChoice(id: string) {
    id == "sale" || id == "rent"
  }

  predicate IsCheckbox(id: string) {
    id == "parking" || id == "furnished" || id == "offer"
  }

  /** The input types whose raw value the update page stores. */
  predicate IsValueInput(kind: string) {
    kind == "number" || kind == "text" || kind == "textarea"
  }

  /** The (id, type) pairs of the inputs both pages render with `onChange={handleChange}`. */
  const RenderedInputs: set<(string, string)> := {
    ("name", "text"), ("description", "textarea"), ("address", "text"),
    ("sale", "radio"), ("rent", "radio"),
    ("bedrooms", "number"), ("bathrooms", "number"),
    ("regularPrice", "number"), ("discountPrice", "number"),
    ("offer", "checkbox"), ("parking", "checkbox"), ("furnished", "checkbox")
  }

  predicate IsRendered(e: InputEvent) {
    (e.id, e.kind) in RenderedInputs
  }

  /** Each rendered input is of exactly one of three sorts: a type radio, a
      feature checkbox, or a value input naming a scalar field other than `type`. */
  lemma RenderedInputSorts(e: InputEvent)
    requires IsRendered(e)
    ensures IsTypeChoice(e.id) <==> e.kind == "radio"
    ensures IsCheckbox(e.id) <==> e.kind == "checkbox"
    ensures IsValueInput(e.kind) <==> !IsTypeChoice(e.id) && !IsCheckbox(e.id)
    ensures IsValueInput(e.kind) ==> e.id in ScalarFields && e.id != "type"
    ensures IsCheckbox(e.id) ==> e.id in FlagFields
    ensures e.kind == "number" <==> e.id in {"bedrooms", "bathrooms", "regularPrice", "discountPrice"}
  {
  }

  // ---------------------------------------------------------------------------
  // Image upload batch

  datatype ImageFile = ImageFile(name: string)

  /** The outcome of uploading one file to the image host. */
  datatype Upload = Uploaded(url: string) | UploadFailed

  /** `Promise.all` over the per-file uploads, taken in file order: every URL
      when all uploads succeed, otherwise a failure. */
  function UploadAll(results: seq<Upload>): (r: Option<seq<string>>)
    ensures r.Some? <==> forall i :: 0 <= i < |results| ==> results[i].Uploaded?
    ensures r.Some? ==> |r.value| == |results|
    ensures r.Some? ==> forall i :: 0 <= i < |results| ==> r.value[i] == results[i].url
  {
    if results == [] then Some([])
    else
      match results[0]
      case UploadFailed => None
      case Uploaded(u) =>
        match UploadAll(results[1..])
        case None => None
        case Some(rest) => Some([u] + rest)
  }

  /** The upload of a whole selection: one abstract upload step per file. */
  function UploadBatch(files: seq<ImageFile>, store: ImageFile -> Upload): (r: Option<seq<string>>)
    ensures r.Some? <==> forall i :: 0 <= i < |files| ==> store(files[i]).Uploaded?
    ensures r.Some? ==> |r.value| == |files|
    ensures r.Some? ==> forall i :: 0 <= i < |files| ==> r.value[i] == store(files[i]).url
  {
    var results := seq(|files|, i requires 0 <= i < |files| => store(files[i]));
    assert forall i :: 0 <= i < |files| ==> results[i] == store(files[i]);
    UploadAll(results)
  }

  /** The record with the uploaded URLs appended to `imageUrls`. */
  function AppendUrls(f: Form, urls: seq<string>): (r: Form)
    requires WellShaped(f)
    ensures WellShaped(r)
    ensures ImageUrls(r) == ImageUrls(f) + urls
    ensures AgreeExcept(f, r, "imageUrls")
  {
    f["imageUrls" := Urls(ImageUrls(f) + urls)]
  }

  // ---------------------------------------------------------------------------
  // JavaScript comparisons

  /** `+v` for a string or a number. */
  function ToNumber(v: Value, parse: NumberParse): int
    requires IsScalar(v)
  {
    if v.Number? then v.n else parse(v.s)
  }

  /** JavaScript `<` on two strings: lexicographic order of their characters. */
  function StrLess(a: string, b: string): (r: bool)
    ensures r && |a| <= |b| && a == b[..|a|] ==> |a| < |b|
    ensures |a| < |b| && a == b[..|a|] ==> r
  {
    if b == [] then false
    else if a == [] then true
    else if a[0] != b[0] then a[0] < b[0]
    else StrLess(a[1..], b[1..])
  }

  /** JavaScript `<` on two strings or numbers: string order when both are
      strings, otherwise numeric order after coercion. */
  function JsLess(a: Value, b: Value, parse: NumberParse): bool
    requires IsScalar(a) && IsScalar(b)
  {
    if a.Text? && b.Text? then StrLess(a.s, b.s)
    else ToNumber(a, parse) < ToNumber(b, parse)
  }

  /** No value is below itself, so a discount equal to the regular price is never refused. */
  lemma JsLessIrreflexive(v: Value, parse: NumberParse)
    requires IsScalar(v)
    ensures !JsLess(v, v, parse)
  {
  }

  /** JavaScript truthiness of an optional (absent means `undefined`) value. */
  predicate Truthy(o: Option<Value>) {
    match o
    case None => false
    case Some(Bool(b)) => b
    case Some(Text(s)) => s != ""
    case Some(Number(n)) => n != 0
    case Some(Urls(_)) => true
  }

  // ---------------------------------------------------------------------------
  // Submission

  /** The result of a submit check: refused with a message, or the payload to send. */
  datatype Outcome = Rejected(message: string) | Accepted(payload: Form)

  /** `{...f, userRef: userId}`. */
  function WithUserRef(f: Form, userId: string): (r: Form)
    ensures "userRef" in r && r["userRef"] == Text(userId)
    ensures AgreeExcept(f, r, "userRef")
  {
    f["userRef" := Text(userId)]
  }

  /** What the server answered to a create or update request: the `success`
      and `message` fields of the response body, or a thrown error. */
  datatype Reply = Replied(success: Option<Value>, message: Option<string>) | Threw(error: string)
}
