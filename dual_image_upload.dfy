/** The two-image upload field (src/components/field/DualImageUpload.tsx). */
module DualImageUploadFormElement {
  import opened Wrappers
  import opened ElementModel
  import opened ImageScaling

  datatype Properties = Properties(
    labelText: string, helperText: string, required: bool, prompt: string, buttonText: string,
    width: string, height: string, maxDimension: real)

  function ToAttrs(p: Properties): Attrs {
    map["label" := Str(p.labelText), "helperText" := Str(p.helperText), "required" := Bool(p.required),
        "prompt" := Str(p.prompt), "buttonText" := Str(p.buttonText), "width" := Str(p.width),
        "height" := Str(p.height), "maxDimension" := Num(p.maxDimension)]
  }

  function FromAttrs(a: Option<Attrs>): Option<Properties> {
    match (Lookup(a, "label"), Lookup(a, "helperText"), Lookup(a, "required"), Lookup(a, "prompt"),
           Lookup(a, "buttonText"), Lookup(a, "width"), Lookup(a, "height"), Lookup(a, "maxDimension"))
    case (Some(Str(l)), Some(Str(h)), Some(Bool(r)), Some(Str(p)), Some(Str(b)), Some(Str(w)),
          Some(Str(ht)), Some(Num(mx))) =>
      Some(Properties(l, h, r, p, b, w, ht, mx))
    case _ => None
  }

  lemma AttrsRoundTrip(p: Properties)
    ensures FromAttrs(Some(ToAttrs(p))) == Some(p)
  {
  }

  const Defaults: Properties :=
    Properties("Dual Image Upload", "Upload two image files", false, "Upload two images", "Choose Files", "w-64", "h-48", 800.0)

  function Construct(id: string): (e: Element)
    ensures e.id == id && e.typeName == KindName(Kind.DualImageUpload)
    ensures FromAttrs(e.attrs) == Some(Defaults)
  {
    Element(id, "DualImageUpload", Some(ToAttrs(Defaults)))
  }

  predicate Accepted(p: Properties) {
    2 <= |p.labelText| <= 50 && |p.helperText| <= 200 && 2 <= |p.prompt| <= 100
    && 2 <= |p.buttonText| <= 50 && 100.0 <= p.maxDimension <= 2000.0
  }

  lemma DefaultsAccepted()
    ensures Accepted(Defaults)
  {
  }

  function ApplyChanges(e: Element, values: Properties): (r: Element)
    requires Accepted(values)
    ensures r.id == e.id && r.typeName == e.typeName
    ensures FromAttrs(r.attrs) == Some(values)
    ensures r.attrs.value.Keys == {"label", "helperText", "required", "prompt", "buttonText", "width", "height", "maxDimension"}
  {
    e.(attrs := Some(ToAttrs(values)))
  }

  /** `value.length > 0` for one entry: only strings and arrays have a length. */
  predicate HasLength(v: Value) {
    match v
    case Str(s) => |s| > 0
    case List(xs) => |xs| > 0
    case _ => false
  }

  /**
    `validate`: a field that is not required always passes; a required one passes exactly
    when the submitted text parses (`parsed`, None when JSON.parse throws) to an array of
    two entries that both have a positive length.
  */
  function Validate(required: bool, parsed: Option<Value>): (ok: bool)
    ensures !required ==> ok
    ensures required ==> (ok <==> parsed.Some? && parsed.value.List? && |parsed.value.items| == 2
                                   && HasLength(parsed.value.items[0]) && HasLength(parsed.value.items[1]))
  {
    if !required then true
    else
      match parsed
      case Some(List(xs)) =>
        |xs| == 2 && forall i :: 0 <= i < |xs| ==> HasLength(xs[i])
      case _ => false
  }

  // ---- the form component's state ----

  const NoFile: Value := Str("No file chosen")

  /**
    The file names shown under the two buttons: the default value when it parses to an
    array (of any length and content), otherwise two "No file chosen" placeholders.
  */
  function InitialNames(parsedDefault: Option<Value>): (names: seq<Value>)
    ensures parsedDefault.Some? && parsedDefault.value.List? ==> names == parsedDefault.value.items
    ensures !(parsedDefault.Some? && parsedDefault.value.List?) ==> names == [NoFile, NoFile]
  {
    match parsedDefault
    case Some(List(xs)) => xs
    case _ => [NoFile, NoFile]
  }

  /**
    `newFileNames[index] = name` on a copy of the array: writing past the end pads with
    holes, which JSON.stringify writes as null.
  */
  function SetName(names: seq<Value>, index: nat, name: string): (r: seq<Value>)
    ensures |r| == if index < |names| then |names| else index + 1
    ensures r[index] == Str(name)
    ensures forall j :: 0 <= j < |r| && j != index ==> r[j] == if j < |names| then names[j] else Null
  {
    if index < |names| then names[index := Str(name)]
    else names + seq(index - |names|, _ => Null) + [Str(name)]
  }

  /**
    `handleFileSelect` for the button `index` (0 or 1): an image file sets that slot to the
    file's name (a resized file keeps the name) and submits the whole array; any other file
    changes nothing and submits nothing.
  */
  function SelectFile(names: seq<Value>, index: nat, file: ImageFile): (r: (seq<Value>, Option<seq<Value>>))
    requires index < 2
    ensures !IsImage(file) ==> r == (names, None)
    ensures IsImage(file) ==> r.1 == Some(r.0) && r.0 == SetName(names, index, file.name)
  {
    if IsImage(file) then
      var updated := SetName(names, index, file.name);
      (updated, Some(updated))
    else (names, None)
  }

  /**
    Picking two named images, one per button, from the initial placeholders submits a value
    a required field accepts.
  */
  lemma TwoSelectionsValidate(parsedDefault: Option<Value>, first: ImageFile, second: ImageFile)
    requires !(parsedDefault.Some? && parsedDefault.value.List?)
    requires IsImage(first) && IsImage(second) && |first.name| > 0 && |second.name| > 0
    ensures var (afterFirst, _) := SelectFile(InitialNames(parsedDefault), 0, first);
            var (_, submitted) := SelectFile(afterFirst, 1, second);
            submitted.Some? && submitted.value == [Str(first.name), Str(second.name)]
            && Validate(true, Some(List(submitted.value)))
  {
    var (afterFirst, _) := SelectFile(InitialNames(parsedDefault), 0, first);
    assert afterFirst == [Str(first.name), NoFile];
    var (_, submitted) := SelectFile(afterFirst, 1, second);
    assert submitted.value == [Str(first.name), Str(second.name)];
  }

  /** A single selection leaves the other slot's placeholder, which also has a length. */
  lemma OneSelectionStillValidates(first: ImageFile)
    requires IsImage(first) && |first.name| > 0
    ensures var (_, submitted) := SelectFile([NoFile, NoFile], 0, first);
            Validate(true, Some(List(submitted.value)))
  {
    var (names, _) := SelectFile([NoFile, NoFile], 0, first);
    assert names == [Str(first.name), NoFile];
  }

  /**
    What a required two-image field evidently means: both slots hold a chosen file, so an
    entry still showing the placeholder does not count as having a length.
  */
  function ValidateIntended(required: bool, parsed: Option<Value>): (ok: bool)
    ensures !required ==> ok
    ensures required && ok ==> Validate(required, parsed)
    ensures required ==> (ok <==> Validate(required, parsed)
                                   && parsed.value.items[0] != NoFile && parsed.value.items[1] != NoFile)
  {
    if !required then true
    else
      match parsed
      case Some(List(xs)) =>
        |xs| == 2 && forall i :: 0 <= i < |xs| ==> HasLength(xs[i]) && xs[i] != NoFile
      case _ => false
  }

  /** Under the intended check, one selection is rejected and two selections are accepted. */
  lemma IntendedNeedsBothFiles(first: ImageFile, second: ImageFile)
    requires IsImage(first) && IsImage(second) && |first.name| > 0 && |second.name| > 0
    requires first.name != "No file chosen" && second.name != "No file chosen"
    ensures var (afterFirst, submitted) := SelectFile([NoFile, NoFile], 0, first);
            !ValidateIntended(true, Some(List(submitted.value)))
            && ValidateIntended(true, Some(List(SelectFile(afterFirst, 1, second).1.value)))
  {
    var (afterFirst, submitted) := SelectFile([NoFile, NoFile], 0, first);
    assert afterFirst == [Str(first.name), NoFile];
    assert submitted.value[1] == NoFile;
    var both := SelectFile(afterFirst, 1, second).1.value;
    assert both == [Str(first.name), Str(second.name)];
  }
}
