/** The subtitle heading (src/components/field/SubTitleField.tsx). */
module SubTitleFieldFormElement {
  import opened Wrappers
  import opened ElementModel
  import opened FontStyles

  datatype Properties = Properties(subTitle: string, fontSize: string, alignment: string)

  const Defaults: Properties := Properties("Subtitle", "h2", "center")

  function ToAttrs(p: Properties): Attrs {
    map["subTitle" := Str(p.subTitle), "fontSize" := Str(p.fontSize), "alignment" := Str(p.alignment)]
  }

  function FromAttrs(a: Option<Attrs>): Option<Properties> {
    match (Lookup(a, "subTitle"), Lookup(a, "fontSize"), Lookup(a, "alignment"))
    case (Some(Str(t)), Some(Str(f)), Some(Str(al))) => Some(Properties(t, f, al))
    case _ => None
  }

  lemma AttrsRoundTrip(p: Properties)
    ensures FromAttrs(Some(ToAttrs(p))) == Some(p)
  {
  }

  function Construct(id: string): (e: Element)
    ensures e.id == id && e.typeName == KindName(Kind.SubTitleField)
    ensures FromAttrs(e.attrs) == Some(Defaults)
  {
    Element(id, "SubTitleField", Some(ToAttrs(Defaults)))
  }

  /** The zod schema: a subtitle of 2..50 characters and a listed font size and alignment. */
  predicate Accepted(p: Properties) {
    2 <= |p.subTitle| <= 50 && p.fontSize in FontSizeKeys && p.alignment in AlignmentKeys
  }

  lemma DefaultsAccepted()
    ensures Accepted(Defaults)
  {
  }

  function Validate(e: Element, value: string): (ok: bool)
    ensures ok
  {
    true
  }

  function ApplyChanges(e: Element, values: Properties): (r: Element)
    requires Accepted(values)
    ensures r.id == e.id && r.typeName == e.typeName
    ensures FromAttrs(r.attrs) == Some(values) && r.attrs.value.Keys == {"subTitle", "fontSize", "alignment"}
  {
    e.(attrs := Some(ToAttrs(values)))
  }
}
