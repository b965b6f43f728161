/**
  The form document's data model (src/components/FormElements.tsx): the closed set of
  element kinds, element instances and the loosely typed attribute bag they carry.

  JSON.parse and JSON.stringify are taken as the identity on these datatypes, so a
  stored form and a live form are the same kind of value; the only difference is that
  a stored `type` string may name no kind at all.
*/
module ElementModel {
  import opened Wrappers

  /** The 18 kind tags of `ElementsType`. */
  datatype Kind =
    | TextField | TitleField | SubTitleField | ParagraphField | SeparatorField | SpacerField
    | NumberField | TextAreaField | DateField | SelectField | CheckboxField | ImageElement
    | ImageUploadField | BulletedListField | RatingScaleField | DualImageUpload
    | PictureSelectField | TwoColumnLayoutField

  const AllKinds: seq<Kind> := [
    TextField, TitleField, SubTitleField, ParagraphField, SeparatorField, SpacerField,
    NumberField, TextAreaField, DateField, SelectField, CheckboxField, ImageElement,
    ImageUploadField, BulletedListField, RatingScaleField, DualImageUpload,
    PictureSelectField, TwoColumnLayoutField
  ]

  /** The string a kind is written as in an instance's `type` field. */
  function KindName(k: Kind): string {
    match k
    case TextField => "TextField"
    case TitleField => "TitleField"
    case SubTitleField => "SubTitleField"
    case ParagraphField => "ParagraphField"
    case SeparatorField => "SeparatorField"
    case SpacerField => "SpacerField"
    case NumberField => "NumberField"
    case TextAreaField => "TextAreaField"
    case DateField => "DateField"
    case SelectField => "SelectField"
    case CheckboxField => "CheckboxField"
    case ImageElement => "ImageElement"
    case ImageUploadField => "ImageUploadField"
    case BulletedListField => "BulletedListField"
    case RatingScaleField => "RatingScaleField"
    case DualImageUpload => "DualImageUpload"
    case PictureSelectField => "PictureSelectField"
    case TwoColumnLayoutField => "TwoColumnLayoutField"
  }

  /** The lookup `FormElements[s]`: which kind, if any, a stored `type` string names. */
  function ParseKind(s: string): (r: Option<Kind>)
    ensures r.Some? ==> KindName(r.value) == s
  {
    if s == "TextField" then Some(TextField)
    else if s == "TitleField" then Some(TitleField)
    else if s == "SubTitleField" then Some(SubTitleField)
    else if s == "ParagraphField" then Some(ParagraphField)
    else if s == "SeparatorField" then Some(SeparatorField)
    else if s == "SpacerField" then Some(SpacerField)
    else if s == "NumberField" then Some(NumberField)
    else if s == "TextAreaField" then Some(TextAreaField)
    else if s == "DateField" then Some(DateField)
    else if s == "SelectField" then Some(SelectField)
    else if s == "CheckboxField" then Some(CheckboxField)
    else if s == "ImageElement" then Some(ImageElement)
    else if s == "ImageUploadField" then Some(ImageUploadField)
    else if s == "BulletedListField" then Some(BulletedListField)
    else if s == "RatingScaleField" then Some(RatingScaleField)
    else if s == "DualImageUpload" then Some(DualImageUpload)
    else if s == "PictureSelectField" then Some(PictureSelectField)
    else if s == "TwoColumnLayoutField" then Some(TwoColumnLayoutField)
    else None
  }

  /** Every kind's name is recognised as that kind: names and kinds are in bijection. */
  lemma ParseKindName(k: Kind)
    ensures ParseKind(KindName(k)) == Some(k)
  {
  }

  lemma KindNameInjective(a: Kind, b: Kind)
    ensures KindName(a) == KindName(b) <==> a == b
  {
    ParseKindName(a);
    ParseKindName(b);
  }

  /** `ElementsType` is a closed set of exactly 18 distinct tags. */
  lemma AllKindsClosed(k: Kind)
    ensures k in AllKinds
    ensures |AllKinds| == 18
    ensures forall i, j :: 0 <= i < j < |AllKinds| ==> AllKinds[i] != AllKinds[j]
  {
  }

  /** A value in an attribute bag, as JSON would hold it; an element record is `Record`. */
  datatype Value =
    | Str(s: string)
    | Num(n: real)
    | Bool(b: bool)
    | Null
    | List(items: seq<Value>)
    | Record(element: Element)

  type Attrs = map<string, Value>

  /** `FormElementInstance`: an id, a type tag and an optional attribute bag. */
  datatype Element = Element(id: string, typeName: string, attrs: Option<Attrs>)

  const ContainerType: string := "TwoColumnLayoutField"
  const LeftColumn: string := "leftColumn"
  const RightColumn: string := "rightColumn"

  /** The value of `bag?.[key]`; None stands for `undefined`. */
  function Lookup(attrs: Option<Attrs>, key: string): Option<Value> {
    if attrs.Some? && key in attrs.value then Some(attrs.value[key]) else None
  }

  /** JavaScript truthiness of a possibly undefined value. */
  predicate Truthy(v: Option<Value>) {
    match v
    case None => false
    case Some(Str(s)) => s != ""
    case Some(Num(n)) => n != 0.0
    case Some(Bool(b)) => b
    case Some(Null) => false
    case Some(List(_)) => true
    case Some(Record(_)) => true
  }

  function Ids(s: seq<Element>): (r: seq<string>)
    ensures |r| == |s| && forall i {:trigger r[i]} :: 0 <= i < |s| ==> r[i] == s[i].id
  {
    if s == [] then [] else [s[0].id] + Ids(s[1..])
  }

  /** `s.findIndex(el => el.id === id)`, with -1 when there is none. */
  function IndexOf(s: seq<Element>, id: string): (r: int)
    ensures -1 <= r < |s|
    ensures r >= 0 ==> s[r].id == id && forall j :: 0 <= j < r ==> s[j].id != id
    ensures r == -1 <==> forall j :: 0 <= j < |s| ==> s[j].id != id
  {
    if s == [] then -1
    else if s[0].id == id then 0
    else
      var k := IndexOf(s[1..], id);
      if k == -1 then -1 else k + 1
  }

  /** No two entries share an id. */
  predicate UniqueIds(s: seq<Element>) {
    forall i, j :: 0 <= i < j < |s| ==> s[i].id != s[j].id
  }

  lemma IndexOfFirst(s: seq<Element>, i: nat)
    requires i < |s|
    requires forall j :: 0 <= j < i ==> s[j].id != s[i].id
    ensures IndexOf(s, s[i].id) == i
  {
  }

  /** With unique ids, an element's id is found at its own position. */
  lemma IndexOfUnique(s: seq<Element>, i: nat)
    requires i < |s| && UniqueIds(s)
    ensures IndexOf(s, s[i].id) == i
  {
    IndexOfFirst(s, i);
  }

  /** Number of occurrences of `x` in `s`. */
  function Count<T(==)>(s: seq<T>, x: T): nat {
    if s == [] then 0 else (if s[0] == x then 1 else 0) + Count(s[1..], x)
  }

  lemma {:induction false} CountAppend<T>(a: seq<T>, b: seq<T>, x: T)
    ensures Count(a + b, x) == Count(a, x) + Count(b, x)
  {
    if a == [] {
      assert a + b == b;
    } else {
      assert (a + b)[1..] == a[1..] + b;
      CountAppend(a[1..], b, x);
    }
  }

  lemma {:induction false} CountAbsent<T>(s: seq<T>, x: T)
    requires forall i :: 0 <= i < |s| ==> s[i] != x
    ensures Count(s, x) == 0
  {
    if s != [] {
      CountAbsent(s[1..], x);
    }
  }

  lemma {:induction false} CountUnique<T>(s: seq<T>, i: nat)
    requires i < |s|
    requires forall a, b :: 0 <= a < b < |s| ==> s[a] != s[b]
    ensures Count(s, s[i]) == 1
  {
    if i == 0 {
      CountAbsent(s[1..], s[0]);
    } else {
      CountUnique(s[1..], i - 1);
    }
  }
}
