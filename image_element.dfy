/** The static image element (src/components/field/ImageElement.tsx). */
module ImageFormElement {
  import opened Wrappers
  import opened ElementModel
  import opened ImageScaling

  datatype Properties = Properties(
    base64Image: string, height: real, width: real, maintainAspectRatio: bool, alignment: string,
    marginTop: real, marginBottom: real, marginLeft: real, marginRight: real, maxDimension: real)

  const Defaults: Properties := Properties("", 200.0, 200.0, true, "center", 0.0, 0.0, 0.0, 0.0, 800.0)

  /** Every bag key except `base64Image`. */
  function OtherAttrs(p: Properties): Attrs {
    map["height" := Num(p.height), "width" := Num(p.width),
        "maintainAspectRatio" := Bool(p.maintainAspectRatio), "alignment" := Str(p.alignment),
        "marginTop" := Num(p.marginTop), "marginBottom" := Num(p.marginBottom),
        "marginLeft" := Num(p.marginLeft), "marginRight" := Num(p.marginRight),
        "maxDimension" := Num(p.maxDimension)]
  }

  function ToAttrs(p: Properties): Attrs {
    OtherAttrs(p)["base64Image" := Str(p.base64Image)]
  }

  function FromAttrs(a: Option<Attrs>): Option<Properties> {
    match (Lookup(a, "base64Image"), Lookup(a, "height"), Lookup(a, "width"),
           Lookup(a, "maintainAspectRatio"), Lookup(a, "alignment"), Lookup(a, "marginTop"),
           Lookup(a, "marginBottom"), Lookup(a, "marginLeft"), Lookup(a, "marginRight"),
           Lookup(a, "maxDimension"))
    case (Some(Str(img)), Some(Num(h)), Some(Num(w)), Some(Bool(keep)), Some(Str(al)),
          Some(Num(mt)), Some(Num(mb)), Some(Num(ml)), Some(Num(mr)), Some(Num(mx))) =>
      Some(Properties(img, h, w, keep, al, mt, mb, ml, mr, mx))
    case _ => None
  }

  lemma AttrsRoundTrip(p: Properties)
    ensures FromAttrs(Some(ToAttrs(p))) == Some(p)
  {
  }

  /** `construct(id)`: no image yet, 200 by 200, ratio kept, centred, no margins, limit 800. */
  function Construct(id: string): (e: Element)
    ensures e.id == id && e.typeName == KindName(Kind.ImageElement)
    ensures FromAttrs(e.attrs) == Some(Defaults)
  {
    Element(id, "ImageElement", Some(ToAttrs(Defaults)))
  }

  /** The zod schema's bounds. */
  predicate Accepted(p: Properties) {
    1.0 <= p.height <= 2000.0 && 1.0 <= p.width <= 2000.0
    && p.alignment in ["left", "center", "right"]
    && 0.0 <= p.marginTop <= 100.0 && 0.0 <= p.marginBottom <= 100.0
    && 0.0 <= p.marginLeft <= 100.0 && 0.0 <= p.marginRight <= 100.0
    && 100.0 <= p.maxDimension <= 2000.0
  }

  lemma DefaultsAccepted()
    ensures Accepted(Defaults)
  {
  }

  function Validate(e: Element, value: string): (ok: bool)
    ensures ok
  {
    true
  }

  /**
    `applyChanges`: every field comes from the form except `base64Image`, which keeps the
    stored value (and stays absent when the stored bag has none).
  */
  function ApplyChanges(e: Element, values: Properties): (r: Element)
    requires e.attrs.Some?
    requires Accepted(values)
    ensures r.id == e.id && r.typeName == e.typeName && r.attrs.Some?
    ensures Lookup(r.attrs, "base64Image") == Lookup(e.attrs, "base64Image")
    ensures forall k :: k in OtherAttrs(values) ==> Lookup(r.attrs, k) == Some(OtherAttrs(values)[k])
    ensures forall k :: k in r.attrs.value ==> k == "base64Image" || k in OtherAttrs(values)
  {
    var stored := Lookup(e.attrs, "base64Image");
    e.(attrs := Some(if stored.Some? then OtherAttrs(values)["base64Image" := stored.value] else OtherAttrs(values)))
  }

  /**
    The upload handler's effect on the element: an image file replaces `base64Image` by
    the data URL of the (possibly resized) file, `encoded`, and nothing else; any other
    file is ignored.
  */
  function UploadImage(e: Element, file: ImageFile, encoded: string): (r: Element)
    ensures !IsImage(file) ==> r == e
    ensures IsImage(file) ==> (
      && r.id == e.id && r.typeName == e.typeName
      && Lookup(r.attrs, "base64Image") == Some(Str(encoded))
      && forall k :: k != "base64Image" ==> Lookup(r.attrs, k) == Lookup(e.attrs, k))
  {
    if IsImage(file) then
      var bag := if e.attrs.Some? then e.attrs.value else map[];
      e.(attrs := Some(bag["base64Image" := Str(encoded)]))
    else e
  }

  /** `resizeImage`'s dimension steps, on the locals `newWidth` and `newHeight`. */
  method ResizeDimensions(width: real, height: real, maxDimension: real) returns (newWidth: real, newHeight: real)
    requires width >= 0.0 && height >= 0.0 && maxDimension >= 0.0
    ensures Size(newWidth, newHeight) == FitWithin(width, height, maxDimension)
  {
    newWidth := width;
    newHeight := height;
    if width > maxDimension || height > maxDimension {
      if width > height {
        newWidth := maxDimension;
        newHeight := (height / width) * maxDimension;
      } else {
        newHeight := maxDimension;
        newWidth := (width / height) * maxDimension;
      }
    }
  }
}
