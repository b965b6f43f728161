/**
  The rating scale element: its registry entry (src/components/field/RatingScale/index.tsx)
  and its property form (src/components/field/RatingScale/PropertiesComponent.tsx).
*/
module RatingScaleFormElement {
  import opened Wrappers
  import opened ElementModel
  import opened ColorSchemes

  /**
    The property form's values. `gradientScheme` is the form's choice, "none" or a
    gradient key; the bag stores null for "none".
  */
  datatype Properties = Properties(
    labelText: string, helperText: string, required: bool, question: string,
    minLabel: string, midLabel: string, maxLabel: string,
    minValue: real, maxValue: real, colorScheme: string, gradientScheme: string)

  const Defaults: Properties := Properties(
    "Rating Scale", "Select a value", false, "Rate your experience",
    "Poor", "Average", "Excellent", 1.0, 10.0, "blue", "none")

  /** `gradientScheme === 'none' ? null : gradientScheme`. */
  function GradientValue(g: string): (v: Value)
    ensures v == Null <==> g == "none"
    ensures v != Null ==> v == Str(g)
  {
    if g == "none" then Null else Str(g)
  }

  function ToAttrs(p: Properties): Attrs {
    map["label" := Str(p.labelText), "helperText" := Str(p.helperText), "required" := Bool(p.required),
        "question" := Str(p.question), "minLabel" := Str(p.minLabel), "midLabel" := Str(p.midLabel),
        "maxLabel" := Str(p.maxLabel), "minValue" := Num(p.minValue), "maxValue" := Num(p.maxValue),
        "colorScheme" := Str(p.colorScheme), "gradientScheme" := GradientValue(p.gradientScheme)]
  }

  /** Reads the form's values back from a bag; a stored null gradient reads as "none". */
  function FromAttrs(a: Option<Attrs>): Option<Properties> {
    var g := match Lookup(a, "gradientScheme")
      case Some(Null) => Some("none")
      case Some(Str(s)) => Some(s)
      case _ => None;
    match (Lookup(a, "label"), Lookup(a, "helperText"), Lookup(a, "required"), Lookup(a, "question"),
           Lookup(a, "minLabel"), Lookup(a, "midLabel"), Lookup(a, "maxLabel"),
           Lookup(a, "minValue"), Lookup(a, "maxValue"), Lookup(a, "colorScheme"), g)
    case (Some(Str(l)), Some(Str(h)), Some(Bool(r)), Some(Str(q)), Some(Str(lo)), Some(Str(mid)),
          Some(Str(hi)), Some(Num(mn)), Some(Num(mx)), Some(Str(c)), Some(gs)) =>
      Some(Properties(l, h, r, q, lo, mid, hi, mn, mx, c, gs))
    case _ => None
  }

  /** Every form value survives storing and reading back, "none" included. */
  lemma AttrsRoundTrip(p: Properties)
    ensures FromAttrs(Some(ToAttrs(p))) == Some(p)
  {
  }

  /** `construct(id)`: type "RatingScaleField", scale 1..10, blue, no gradient, not required. */
  function Construct(id: string): (e: Element)
    ensures e.id == id && e.typeName == KindName(Kind.RatingScaleField)
    ensures FromAttrs(e.attrs) == Some(Defaults)
    ensures Lookup(e.attrs, "gradientScheme") == Some(Null)
    ensures Lookup(e.attrs, "required") == Some(Bool(false))
  {
    AttrsRoundTrip(Defaults);
    Element(id, "RatingScaleField", Some(ToAttrs(Defaults)))
  }

  /**
    The zod schema: text bounds, both ends of the scale in 0..100 (no check that
    maxValue >= minValue), a solid scheme key, and "none" or a gradient key.
  */
  predicate Accepted(p: Properties) {
    2 <= |p.labelText| <= 50 && |p.helperText| <= 200 && 2 <= |p.question| <= 200
    && 1 <= |p.minLabel| <= 50 && 1 <= |p.midLabel| <= 50 && 1 <= |p.maxLabel| <= 50
    && 0.0 <= p.minValue <= 100.0 && 0.0 <= p.maxValue <= 100.0
    && p.colorScheme in SolidSchemeKeys
    && (p.gradientScheme == "none" || p.gradientScheme in GradientSchemeKeys)
  }

  lemma DefaultsAccepted()
    ensures Accepted(Defaults)
  {
  }

  /** The schema admits an inverted scale. */
  lemma InvertedScaleAccepted()
    ensures Accepted(Defaults.(minValue := 10.0, maxValue := 1.0))
  {
  }

  /** `validate`: when required, a value must be non-empty; otherwise everything passes. */
  function Validate(e: Element, value: string): (ok: bool)
    requires e.attrs.Some?
    ensures !Truthy(Lookup(e.attrs, "required")) ==> ok
    ensures Truthy(Lookup(e.attrs, "required")) ==> (ok <==> |value| > 0)
  {
    if Truthy(Lookup(e.attrs, "required")) then |value| > 0 else true
  }

  /** `applyChanges`: keeps id and type; the bag holds the values with "none" stored as null. */
  function ApplyChanges(e: Element, values: Properties): (r: Element)
    requires Accepted(values)
    ensures r.id == e.id && r.typeName == e.typeName
    ensures FromAttrs(r.attrs) == Some(values)
    ensures Lookup(r.attrs, "gradientScheme") == Some(if values.gradientScheme == "none" then Null else Str(values.gradientScheme))
  {
    AttrsRoundTrip(values);
    e.(attrs := Some(ToAttrs(values)))
  }
}
