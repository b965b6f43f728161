/** The title heading (src/components/field/TitleField.tsx). */
module TitleFieldFormElement {
  import opened Wrappers
  import opened ElementModel
  import opened FontStyles

  /** The property form's values: `{title, fontSize, alignment}`. */
  datatype Properties = Properties(title: string, fontSize: string, alignment: string)

  const Defaults: Properties := Properties("Title", "h1", "center")

  function ToAttrs(p: Properties): Attrs {
    map["title" := Str(p.title), "fontSize" := Str(p.fontSize), "alignment" := Str(p.alignment)]
  }

  /** Reads the three properties back out of a bag; None when one is missing or not a string. */
  function FromAttrs(a: Option<Attrs>): Option<Properties> {
    match (Lookup(a, "title"), Lookup(a, "fontSize"), Lookup(a, "alignment"))
    case (Some(Str(t)), Some(Str(f)), Some(Str(al))) => Some(Properties(t, f, al))
    case _ => None
  }

  lemma AttrsRoundTrip(p: Properties)
    ensures FromAttrs(Some(ToAttrs(p))) == Some(p)
  {
  }

  /** `construct(id)`: the given id, type "TitleField" and the default properties. */
  function Construct(id: string): (e: Element)
    ensures e.id == id && e.typeName == KindName(Kind.TitleField)
    ensures FromAttrs(e.attrs) == Some(Defaults)
  {
    Element(id, "TitleField", Some(ToAttrs(Defaults)))
  }

  /** The zod schema: a title of 2..50 characters and a listed font size and alignment. */
  predicate Accepted(p: Properties) {
    2 <= |p.title| <= 50 && p.fontSize in FontSizeKeys && p.alignment in AlignmentKeys
  }

  lemma DefaultsAccepted()
    ensures Accepted(Defaults)
  {
  }

  /** `validate` accepts every submitted value. */
  function Validate(e: Element, value: string): (ok: bool)
    ensures ok
  {
    true
  }

  /** `applyChanges`: keeps id and type and replaces the bag by the validated values. */
  function ApplyChanges(e: Element, values: Properties): (r: Element)
    requires Accepted(values)
    ensures r.id == e.id && r.typeName == e.typeName
    ensures FromAttrs(r.attrs) == Some(values) && r.attrs.value.Keys == {"title", "fontSize", "alignment"}
  {
    e.(attrs := Some(ToAttrs(values)))
  }
}
