/** The single image upload field (src/components/field/ImageUploadField.tsx). */
module ImageUploadFieldFormElement {
  import opened Wrappers
  import opened ElementModel
  import opened ImageScaling

  datatype Properties = Properties(
    labelText: string, helperText: string, required: bool, prompt: string, buttonText: string,
    width: string, height: string, maxDimension: real)

  function ToAttrs(p: Properties): Attrs {
    map["label" := Str(p.labelText), "helperText" := Str(p.helperText), "required" := Bool(p.required),
        "prompt" := Str(p.prompt), "buttonText" := Str(p.buttonText), "width" := Str(p.width),
        "height" := Str(p.height), "maxDimension" := Num(p.maxDimension)]
  }

  function FromAttrs(a: Option<Attrs>): Option<Properties> {
    match (Lookup(a, "label"), Lookup(a, "helperText"), Lookup(a, "required"), Lookup(a, "prompt"),
           Lookup(a, "buttonText"), Lookup(a, "width"), Lookup(a, "height"), Lookup(a, "maxDimension"))
    case (Some(Str(l)), Some(Str(h)), Some(Bool(r)), Some(Str(p)), Some(Str(b)), Some(Str(w)),
          Some(Str(ht)), Some(Num(mx))) =>
      Some(Properties(l, h, r, p, b, w, ht, mx))
    case _ => None
  }

  lemma AttrsRoundTrip(p: Properties)
    ensures FromAttrs(Some(ToAttrs(p))) == Some(p)
  {
  }

  const Defaults: Properties :=
    Properties("Image Upload", "Upload an image file", false, "Upload an image", "Choose File", "w-96", "h-64", 800.0)

  /** The one module-level default bag every constructed instance refers to. */
  const DefaultAttrs: Attrs := ToAttrs(Defaults)

  function Construct(id: string): (e: Element)
    ensures e.id == id && e.typeName == KindName(Kind.ImageUploadField)
    ensures FromAttrs(e.attrs) == Some(Defaults) && Lookup(e.attrs, "maxDimension") == Some(Num(800.0))
  {
    Element(id, "ImageUploadField", Some(DefaultAttrs))
  }

  /** Any two constructed instances carry the same (shared) default bag. */
  lemma ConstructSharesDefaults(id1: string, id2: string)
    ensures Construct(id1).attrs == Construct(id2).attrs
  {
  }

  predicate Accepted(p: Properties) {
    2 <= |p.labelText| <= 50 && |p.helperText| <= 200 && 2 <= |p.prompt| <= 100
    && 2 <= |p.buttonText| <= 50 && 100.0 <= p.maxDimension <= 2000.0
  }

  lemma DefaultsAccepted()
    ensures Accepted(Defaults)
  {
  }

  /** `validate` is always true, even for a required field. */
  function Validate(e: Element, value: string): (ok: bool)
    ensures ok
  {
    true
  }

  /** `applyChanges`: the bag becomes exactly the eight form fields. */
  function ApplyChanges(e: Element, values: Properties): (r: Element)
    requires Accepted(values)
    ensures r.id == e.id && r.typeName == e.typeName
    ensures FromAttrs(r.attrs) == Some(values)
    ensures r.attrs.value.Keys == {"label", "helperText", "required", "prompt", "buttonText", "width", "height", "maxDimension"}
  {
    e.(attrs := Some(ToAttrs(values)))
  }

  /** The form component's file state: the chosen name and the preview data URL. */
  datatype UploadState = UploadState(fileName: string, previewUrl: Option<string>)

  /**
    `handleFileSelect`: an image file sets the file name, then the preview, and submits the
    data URL `encoded` of the (possibly resized) file; any other file changes nothing.
  */
  function SelectFile(s: UploadState, file: ImageFile, encoded: string): (r: (UploadState, Option<string>))
    ensures !IsImage(file) ==> r == (s, None)
    ensures IsImage(file) ==> r == (UploadState(file.name, Some(encoded)), Some(encoded))
  {
    if IsImage(file) then (UploadState(file.name, Some(encoded)), Some(encoded)) else (s, None)
  }

  /** `resizeImage`'s dimension steps; this file assigns the height first. */
  method ResizeDimensions(width: real, height: real, maxDimension: real) returns (newWidth: real, newHeight: real)
    requires width >= 0.0 && height >= 0.0 && maxDimension >= 0.0
    ensures Size(newWidth, newHeight) == FitWithin(width, height, maxDimension)
  {
    newWidth := width;
    newHeight := height;
    if newWidth > maxDimension || newHeight > maxDimension {
      if newWidth > newHeight {
        newHeight := (newHeight / newWidth) * maxDimension;
        newWidth := maxDimension;
      } else {
        newWidth := (newWidth / newHeight) * maxDimension;
        newHeight := maxDimension;
      }
    }
  }
}
