/**
  The `FormElements` registry (src/components/FormElements.tsx): one entry per kind,
  each carrying its kind tag and its `construct`.
*/
module FormElementsRegistry {
  import opened Wrappers
  import opened ElementModel
  import Title = TitleFieldFormElement
  import SubTitle = SubTitleFieldFormElement
  import Bulleted = BulletedListFieldFormElement
  import Rating = RatingScaleFormElement
  import TwoColumn = TwoColumnLayoutFieldFormElement
  import Image = ImageFormElement
  import ImageUpload = ImageUploadFieldFormElement
  import DualImage = DualImageUploadFormElement

  /** A registry entry: its `type` and its `construct`. */
  datatype FormElement = FormElement(kind: Kind, construct: string -> Element)

  /**
    The instance `construct(id)` builds for each kind. The ten kinds whose field modules
    are not part of this model get an empty attribute bag in place of their defaults.
  */
  function Construct(k: Kind, id: string): (e: Element)
    ensures e.id == id && e.typeName == KindName(k) && e.attrs.Some?
  {
    match k
    case TitleField => Title.Construct(id)
    case SubTitleField => SubTitle.Construct(id)
    case BulletedListField => Bulleted.Construct(id)
    case RatingScaleField => Rating.Construct(id)
    case TwoColumnLayoutField => TwoColumn.Construct(id)
    case ImageElement => Image.Construct(id)
    case ImageUploadField => ImageUpload.Construct(id)
    case DualImageUpload => DualImage.Construct(id)
    case _ => Element(id, KindName(k), Some(map[]))
  }

  function Entry(k: Kind): FormElement {
    FormElement(k, id => Construct(k, id))
  }

  /** The registry object, keyed by kind. */
  const FormElements: map<Kind, FormElement> := map k | k in AllKinds :: Entry(k)

  /**
    The registry is total over the 18 kinds, every entry's `type` is the key it is stored
    under, and constructing through an entry gives an instance of that kind with the id
    asked for.
  */
  lemma RegistryWellFormed(k: Kind, id: string)
    ensures k in FormElements
    ensures FormElements[k].kind == k
    ensures FormElements[k].construct(id).id == id
    ensures FormElements[k].construct(id).typeName == KindName(k)
    ensures |FormElements.Keys| == 18
  {
    AllKindsClosed(k);
    assert FormElements.Keys == set k | k in AllKinds;
    DistinctSeqCard(AllKinds);
  }

  /** A sequence without repeats has as many elements as its set of members. */
  lemma {:induction false} DistinctSeqCard<T>(s: seq<T>)
    requires forall i, j :: 0 <= i < j < |s| ==> s[i] != s[j]
    ensures |set x | x in s| == |s|
  {
    if s != [] {
      DistinctSeqCard(s[1..]);
      assert (set x | x in s) == (set x | x in s[1..]) + {s[0]};
      assert s[0] !in s[1..];
    }
  }

  /** The kind a stored `type` string names always has a registry entry of that name. */
  lemma StoredTypeResolves(t: string)
    ensures ParseKind(t).Some? ==> ParseKind(t).value in FormElements
                                   && KindName(FormElements[ParseKind(t).value].kind) == t
  {
    if ParseKind(t).Some? {
      AllKindsClosed(ParseKind(t).value);
    }
  }
}
