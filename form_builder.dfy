/**
  Loading a stored form into the designer (src/components/FormBuilder.tsx:65-116): the
  stored JSON is taken as already parsed into elements, every element is rebuilt through
  its registry entry, and the designer's root list, selection and theme are set.
*/
module FormBuilderLoad {
  import opened Wrappers
  import opened ElementModel
  import opened DesignerContext
  import Registry = FormElementsRegistry

  /** Why the rebuild throws. Each is a TypeError raised inside `elements.map` in JavaScript. */
  datatype LoadError =
    | UnknownType(typeName: string)
    | MissingAttributes(id: string)
    | ColumnNotAList(column: string)
    | EntryNotAnElement

  predicate KnownType(t: string) {
    ParseKind(t).Some?
  }

  /** A column entry the rebuild accepts: an element record whose type has a registry entry. */
  predicate EntryLoadable(v: Value) {
    v.Record? && KnownType(v.element.typeName)
  }

  /** A column the rebuild can map over: an array of loadable entries. */
  predicate ColumnLoadable(v: Option<Value>) {
    v.Some? && v.value.List? && forall i :: 0 <= i < |v.value.items| ==> EntryLoadable(v.value.items[i])
  }

  /** A stored element the rebuild accepts. */
  predicate Loadable(e: Element) {
    KnownType(e.typeName)
    && (e.typeName == ContainerType ==>
          e.attrs.Some? && ColumnLoadable(Lookup(e.attrs, LeftColumn)) && ColumnLoadable(Lookup(e.attrs, RightColumn)))
  }

  /** Loadable, and a container's `gap` is truthy, so that the `|| "4"` default does not fire. */
  predicate Stable(e: Element) {
    Loadable(e) && (e.typeName == ContainerType ==> Truthy(Lookup(e.attrs, "gap")))
  }

  /**
    `{...FormElements[k].construct(id), extraAttributes: bag}`: the spread keeps the fresh
    instance's id and type and overrides its bag (see `SpreadIsConstruct`).
  */
  function Spread(k: Kind, id: string, bag: Option<Attrs>): (e: Element)
    ensures e.id == id && e.typeName == KindName(k) && e.attrs == bag
  {
    Element(id, KindName(k), bag)
  }

  /** The spread is the registry's instance with its bag replaced. */
  lemma SpreadIsConstruct(k: Kind, id: string, bag: Option<Attrs>)
    ensures Spread(k, id, bag) == Registry.Construct(k, id).(attrs := bag)
  {
  }

  /**
    A column entry: `{...FormElements[type].construct(id), extraAttributes}`. The fresh
    instance contributes its id and type, which are the stored ones, and the stored bag
    replaces its defaults, so an accepted entry comes back unchanged.
  */
  function RebuildEntry(v: Value): (r: Result<Value, LoadError>)
    ensures r.Ok? <==> EntryLoadable(v)
    ensures r.Ok? ==> r.value == v
  {
    match v
    case Record(c) =>
      (match ParseKind(c.typeName)
       case None => Err(UnknownType(c.typeName))
       case Some(k) => Ok(Record(Spread(k, c.id, c.attrs))))
    case _ => Err(EntryNotAnElement)
  }

  /** `column.map(...)`: entries rebuilt in order; the first entry that throws ends the rebuild. */
  function RebuildColumn(items: seq<Value>): (r: Result<seq<Value>, LoadError>)
    ensures r.Ok? <==> forall i :: 0 <= i < |items| ==> EntryLoadable(items[i])
    ensures r.Ok? ==> r.value == items
  {
    if items == [] then Ok([])
    else
      match RebuildEntry(items[0])
      case Err(err) => Err(err)
      case Ok(x) =>
        match RebuildColumn(items[1..])
        case Err(err) => Err(err)
        case Ok(xs) =>
          assert items == [items[0]] + items[1..];
          Ok([x] + xs)
  }

  /** `bag[column].map(...)`: anything but an array under that key throws. */
  function RebuildColumnAt(bag: Attrs, column: string): (r: Result<seq<Value>, LoadError>)
    ensures r.Ok? <==> ColumnLoadable(Lookup(Some(bag), column))
    ensures r.Ok? ==> Lookup(Some(bag), column) == Some(List(r.value))
  {
    if column in bag && bag[column].List? then RebuildColumn(bag[column].items)
    else Err(ColumnNotAList(column))
  }

  /**
    A container's bag: the stored bag with `gap` defaulted to "4" when it is not truthy and
    both columns rebuilt one level deep. The other stored attributes and both columns carry
    over unchanged.
  */
  function RebuildBag(bag: Attrs): (r: Result<Attrs, LoadError>)
    ensures r.Ok? <==> ColumnLoadable(Lookup(Some(bag), LeftColumn)) && ColumnLoadable(Lookup(Some(bag), RightColumn))
    ensures r.Ok? ==> forall k :: k != "gap" ==> Lookup(Some(r.value), k) == Lookup(Some(bag), k)
    ensures r.Ok? ==> Lookup(Some(r.value), "gap")
                      == if Truthy(Lookup(Some(bag), "gap")) then Lookup(Some(bag), "gap") else Some(Str("4"))
  {
    var gap := if Truthy(Lookup(Some(bag), "gap")) then bag["gap"] else Str("4");
    match RebuildColumnAt(bag, LeftColumn)
    case Err(err) => Err(err)
    case Ok(left) =>
      match RebuildColumnAt(bag, RightColumn)
      case Err(err) => Err(err)
      case Ok(right) =>
        RebuiltBag(bag, gap, left, right);
        Ok(bag["gap" := gap][LeftColumn := List(left)][RightColumn := List(right)])
  }

  /** A container: a fresh container carrying the rebuilt bag; reading `gap` on a missing bag throws. */
  function RebuildContainer(e: Element): (r: Result<Element, LoadError>)
    requires e.typeName == ContainerType
    ensures r.Ok? <==> e.attrs.Some? && RebuildBag(e.attrs.value).Ok?
    ensures r.Ok? ==> r.value == Element(e.id, ContainerType, Some(RebuildBag(e.attrs.value).value))
  {
    if e.attrs.None? then Err(MissingAttributes(e.id))
    else
      match RebuildBag(e.attrs.value)
      case Err(err) => Err(err)
      case Ok(bag) => Ok(Spread(Kind.TwoColumnLayoutField, e.id, Some(bag)))
  }

  /** Writing back a column's own items changes nothing under that key. */
  lemma RebuiltBag(bag: Attrs, gap: Value, left: seq<Value>, right: seq<Value>)
    requires Lookup(Some(bag), LeftColumn) == Some(List(left)) && Lookup(Some(bag), RightColumn) == Some(List(right))
    ensures var m := bag["gap" := gap][LeftColumn := List(left)][RightColumn := List(right)];
      && Lookup(Some(m), "gap") == Some(gap)
      && forall k :: k != "gap" ==> Lookup(Some(m), k) == Lookup(Some(bag), k)
  {
  }

  /** One stored element: containers as above, every other kind keeps its stored bag verbatim. */
  function RebuildElement(e: Element): (r: Result<Element, LoadError>)
    ensures r.Ok? <==> Loadable(e)
    ensures r.Ok? ==> r.value.id == e.id && r.value.typeName == e.typeName
    ensures r.Ok? && e.typeName != ContainerType ==> r.value == e
  {
    if e.typeName == ContainerType then
      ParseKindName(Kind.TwoColumnLayoutField);
      RebuildContainer(e)
    else
      match ParseKind(e.typeName)
      case None => Err(UnknownType(e.typeName))
      case Some(k) => Ok(Spread(k, e.id, e.attrs))
  }

  /** `elements.map(...)` over the stored root list; the first element that throws ends the load. */
  function Reconstruct(stored: seq<Element>): (r: Result<seq<Element>, LoadError>)
    ensures r.Ok? <==> forall i :: 0 <= i < |stored| ==> Loadable(stored[i])
    ensures r.Ok? ==> |r.value| == |stored|
  {
    if stored == [] then Ok([])
    else
      match RebuildElement(stored[0])
      case Err(err) => Err(err)
      case Ok(x) =>
        match Reconstruct(stored[1..])
        case Err(err) => Err(err)
        case Ok(xs) => Ok([x] + xs)
  }

  /** The rebuilt list is the stored list rebuilt element by element, in the same order. */
  lemma {:induction false} ReconstructPointwise(stored: seq<Element>)
    requires Reconstruct(stored).Ok?
    ensures forall i :: 0 <= i < |stored| ==> Reconstruct(stored).value[i] == RebuildElement(stored[i]).value
  {
    if stored != [] {
      ReconstructPointwise(stored[1..]);
      var xs := Reconstruct(stored[1..]).value;
      assert Reconstruct(stored).value == [RebuildElement(stored[0]).value] + xs;
    }
  }

  /**
    Reconstruction keeps the length and order of the list and every element's id and type;
    a non-container keeps its stored bag verbatim.
  */
  lemma ReconstructKeepsShape(stored: seq<Element>)
    requires Reconstruct(stored).Ok?
    ensures var r := Reconstruct(stored).value;
      && |r| == |stored|
      && (forall i :: 0 <= i < |r| ==> r[i].id == stored[i].id && r[i].typeName == stored[i].typeName)
      && (forall i :: 0 <= i < |r| && stored[i].typeName != ContainerType ==> r[i] == stored[i])
  {
    ReconstructPointwise(stored);
  }

  /** An unknown type, or a container without an array under a column key, makes the load throw. */
  lemma ReconstructThrows(stored: seq<Element>, i: nat)
    requires i < |stored|
    requires !KnownType(stored[i].typeName)
          || (stored[i].typeName == ContainerType && !ColumnLoadable(Lookup(stored[i].attrs, LeftColumn)))
          || (stored[i].typeName == ContainerType && !ColumnLoadable(Lookup(stored[i].attrs, RightColumn)))
    ensures Reconstruct(stored).Err?
  {
    assert !Loadable(stored[i]);
  }

  /** An element comes back unchanged exactly when it is stable. */
  lemma RebuildElementIdentity(e: Element)
    ensures RebuildElement(e) == Ok(e) <==> Stable(e)
  {
    if Stable(e) && e.typeName == ContainerType {
      var r := RebuildContainer(e).value;
      var bag := e.attrs.value;
      assert r.attrs.value.Keys == bag.Keys by {
        forall k ensures k in r.attrs.value <==> k in bag {
          if k != "gap" {
            assert Lookup(r.attrs, k) == Lookup(e.attrs, k);
          }
        }
      }
      assert forall k :: k in bag ==> r.attrs.value[k] == bag[k] by {
        forall k | k in bag ensures r.attrs.value[k] == bag[k] {
          assert Lookup(r.attrs, k) == Lookup(e.attrs, k);
        }
      }
      assert r.attrs.value == bag;
      assert r == e;
    }
  }

  /**
    The save-and-load round trip: the root list saved as JSON (the identity here) and
    loaded again comes back structurally equal exactly when every element is stable, that
    is loadable with a truthy container `gap`.
  */
  lemma {:induction false} ReconstructRoundTrip(stored: seq<Element>)
    ensures Reconstruct(stored) == Ok(stored) <==> forall i :: 0 <= i < |stored| ==> Stable(stored[i])
  {
    if stored != [] {
      ReconstructRoundTrip(stored[1..]);
      RebuildElementIdentity(stored[0]);
      assert stored == [stored[0]] + stored[1..];
      if Reconstruct(stored) == Ok(stored) {
        assert Reconstruct(stored[1..]) == Ok(stored[1..]);
        forall i | 0 <= i < |stored| ensures Stable(stored[i]) {
          if i > 0 {
            assert stored[i] == stored[1..][i - 1];
          }
        }
      }
      if forall i :: 0 <= i < |stored| ==> Stable(stored[i]) {
        assert forall i :: 0 <= i < |stored[1..]| ==> Stable(stored[1..][i]) by {
          forall i | 0 <= i < |stored[1..]| ensures Stable(stored[1..][i]) {
            assert stored[1..][i] == stored[i + 1];
          }
        }
      }
    }
  }

  /** A container stored with an empty `gap` loads with gap "4", so it does not round-trip. */
  lemma EmptyGapDefaulted(id: string)
    ensures var e := Element(id, ContainerType, Some(map["gap" := Str(""), LeftColumn := List([]), RightColumn := List([])]));
      RebuildElement(e).Ok? && Lookup(RebuildElement(e).value.attrs, "gap") == Some(Str("4"))
  {
  }

  /**
    The rebuild goes one level deep only: a container sitting in a column comes back as
    stored, even with an empty `gap` or no columns at all, which at the top level would be
    defaulted or would throw.
  */
  lemma OneLevelOnly(outer: Element, inner: Element)
    requires inner.typeName == ContainerType && inner.attrs == Some(map["gap" := Str("")])
    requires outer.typeName == ContainerType
    requires outer.attrs == Some(map["gap" := Str("4"), LeftColumn := List([Record(inner)]), RightColumn := List([])])
    ensures RebuildElement(outer) == Ok(outer)
    ensures RebuildElement(inner).Err?
  {
    RebuildElementIdentity(outer);
    assert ColumnLoadable(Lookup(outer.attrs, LeftColumn)) by {
      assert EntryLoadable(Record(inner));
    }
    assert !Loadable(inner) by {
      assert Lookup(inner.attrs, LeftColumn) == None;
    }
  }

  // ---- the loading effect ----

  datatype LoadOutcome = Skipped | Loaded | Threw(error: LoadError)

  /** `form.theme || "default"`: a missing or empty stored theme selects the default theme. */
  function ThemeOrDefault(theme: Option<string>): (t: string)
    ensures t != ""
    ensures theme.Some? && theme.value != "" ==> t == theme.value
    ensures theme.None? || theme == Some("") ==> t == "default"
  {
    if theme.None? || theme.value == "" then "default" else theme.value
  }

  /**
    What one run of the effect does to the store before the ready flag is set: a failed
    rebuild throws before any setter runs.
  */
  function LoadSpec(st: DesignerState, stored: seq<Element>, theme: Option<string>): (DesignerState, LoadOutcome) {
    match Reconstruct(stored)
    case Err(err) => (st, Threw(err))
    case Ok(elements) => (st.(elements := elements, selectedElement := None, theme := ThemeOrDefault(theme)), Loaded)
  }

  /**
    A successful load sets the root list to the rebuilt list (so everything proved about
    `Reconstruct` carries over to the store: same length, order, ids and types, and the saved
    list back exactly when every element is Stable), clears the selection and sets the
    theme, a non-empty stored theme kept and a missing or empty one replaced by "default";
    the mode, the pages and the current page are those of before. A failed load changes
    nothing.
  */
  lemma LoadEffect(st: DesignerState, stored: seq<Element>, theme: Option<string>)
    ensures var (r, outcome) := LoadSpec(st, stored, theme);
      && (outcome == Loaded <==> forall i :: 0 <= i < |stored| ==> Loadable(stored[i]))
      && (outcome == Loaded ==>
            && r.elements == Reconstruct(stored).value
            && |r.elements| == |stored|
            && (r.elements == stored <==> forall i :: 0 <= i < |stored| ==> Stable(stored[i]))
            && r.selectedElement == None
            && r.theme == ThemeOrDefault(theme)
            && (theme.Some? && theme.value != "" ==> r.theme == theme.value)
            && (theme.None? || theme == Some("") ==> r.theme == "default")
            && r.isMultiPage == st.isMultiPage && r.pages == st.pages && r.currentPage == st.currentPage)
      && (outcome != Loaded ==> r == st)
  {
    if Reconstruct(stored).Ok? {
      ReconstructRoundTrip(stored);
    }
  }

  /** The builder page's own state: whether the first load has happened. */
  class FormBuilderView {
    var isReady: bool

    constructor()
      ensures !isReady
    {
      isReady := false;
    }

    /** The loading effect; it does nothing once the page is ready. */
    method Load(store: DesignerStore, stored: seq<Element>, theme: Option<string>) returns (outcome: LoadOutcome)
      modifies store
      ensures old(isReady) ==> outcome == Skipped && store.State() == old(store.State())
      ensures !old(isReady) ==> (store.State(), outcome) == LoadSpec(old(store.State()), stored, theme)
    {
      if isReady {
        return Skipped;
      }
      var rebuilt := Reconstruct(stored);
      if rebuilt.Err? {
        return Threw(rebuilt.error);
      }
      store.SetElements(rebuilt.value);
      store.SetSelectedElement(None);
      store.SetTheme(ThemeOrDefault(theme));
      outcome := Loaded;
    }

    /** The ready timer firing; later runs of the effect return at once. */
    method ReadyTimerFires()
      modifies this
      ensures isReady
    {
      isReady := true;
    }
  }
}
