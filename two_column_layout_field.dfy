/** The two-column container (src/components/field/TwoColumnLayoutField.tsx). */
module TwoColumnLayoutFieldFormElement {
  import opened Wrappers
  import opened ElementModel
  import opened DragData

  /** `construct(id)`: gap "4" and two empty columns. */
  function Construct(id: string): (e: Element)
    ensures e.id == id && e.typeName == KindName(Kind.TwoColumnLayoutField)
    ensures Lookup(e.attrs, "gap") == Some(Str("4"))
    ensures Lookup(e.attrs, LeftColumn) == Some(List([]))
    ensures Lookup(e.attrs, RightColumn) == Some(List([]))
  {
    Element(id, ContainerType, Some(map["gap" := Str("4"), LeftColumn := List([]), RightColumn := List([])]))
  }

  function Validate(e: Element, value: string): (ok: bool)
    ensures ok
  {
    true
  }

  /** The two column drop areas a container registers. */
  function ColumnTargets(e: Element): (targets: seq<OverData>)
    ensures |targets| == 2
    ensures forall t :: t in targets ==> t.ColumnArea? && t.elementId == e.id
    ensures targets[0].columnId == "left" && targets[1].columnId == "right"
  {
    [ColumnArea("left", e.id), ColumnArea("right", e.id)]
  }

  /**
    The memo comparator on the column children: equal ids and equal serialised bags.
    JSON.stringify is the identity here, so the bags are compared as values.
  */
  predicate SameRender(prev: Element, next: Element) {
    prev.id == next.id && prev.attrs == next.attrs
  }

  /**
    The comparator skips a re-render exactly when nothing but possibly the type changed:
    a change of id or of any attribute always re-renders, a change of type alone never does.
  */
  lemma SameRenderIgnoresOnlyType(prev: Element, next: Element)
    ensures SameRender(prev, next) <==> next == prev.(typeName := next.typeName)
  {
  }

  /** `applyChanges`: the bag becomes exactly `{gap, leftColumn, rightColumn}`, missing columns []. */
  function ApplyChanges(e: Element, gap: string, left: Option<seq<Value>>, right: Option<seq<Value>>): (r: Element)
    ensures r.id == e.id && r.typeName == e.typeName
    ensures r.attrs.Some? && r.attrs.value.Keys == {"gap", LeftColumn, RightColumn}
    ensures Lookup(r.attrs, "gap") == Some(Str(gap))
    ensures Lookup(r.attrs, LeftColumn) == Some(List(if left.Some? then left.value else []))
    ensures Lookup(r.attrs, RightColumn) == Some(List(if right.Some? then right.value else []))
  {
    var l := if left.None? then [] else left.value;
    var rt := if right.None? then [] else right.value;
    e.(attrs := Some(map["gap" := Str(gap), LeftColumn := List(l), RightColumn := List(rt)]))
  }
}
