/**
  What a drop does to the document, stated on `Designer.Reconcile`: the no-op cases, the
  palette append and insert, the reorder (with its exact placement), and the move into a
  container column.
*/
module DropProperties {
  import opened Wrappers
  import opened ElementModel
  import opened DragData
  import opened DesignerContext
  import opened Designer
  import Registry = FormElementsRegistry
  import opened Reordering

  lemma ApplyOne(st: DesignerState, c: StoreCall)
    ensures ApplyCalls(st, [c]) == ApplyCall(st, c)
  {
    assert [c][..0] == [];
  }

  lemma ApplyTwo(st: DesignerState, c1: StoreCall, c2: StoreCall)
    ensures ApplyCalls(st, [c1, c2]) == ApplyCall(ApplyCall(st, c1), c2)
  {
    assert [c1, c2][..1] == [c1];
    ApplyOne(st, c1);
  }

  /**
    Nothing changes when the drag has no source or no target, or when a canvas element is
    dropped on the bare canvas area (no branch matches).
  */
  lemma NoTargetNoChange(st: DesignerState, active: Option<ActiveData>, over: Option<OverData>, created: Element)
    requires active.None? || over.None? || (active.value.CanvasElement? && over.value.DesignerDropArea?)
    ensures Reconcile(st, active, over, created) == (st, Returned)
  {
  }

  /**
    A palette item dropped on the canvas area appends one freshly constructed element of
    the dragged kind; the earlier elements are unchanged and keep their order.
  */
  lemma PaletteOnCanvasAppends(st: DesignerState, kind: Kind, freshId: string)
    requires !st.isMultiPage
    ensures var (r, outcome) := Reconcile(st, Some(SidebarButton(kind)), Some(DesignerDropArea), Registry.Construct(kind, freshId));
      && outcome == Returned
      && r == st.(elements := st.elements + [Registry.Construct(kind, freshId)])
      && r.elements[|st.elements|].id == freshId && r.elements[|st.elements|].typeName == KindName(kind)
  {
    var e := Registry.Construct(kind, freshId);
    ApplyOne(st, AddCall(|st.elements|, e));
    assert Insert(st.elements, |st.elements|, e) == st.elements + [e];
  }

  /**
    In multi-page mode the append index is the length of the root list, not of the page:
    the new element goes to the end of a page no longer than the root, but into the middle
    of a longer page.
  */
  lemma PaletteOnCanvasMultiPage(st: DesignerState, kind: Kind, created: Element)
    requires st.isMultiPage && st.currentPage >= 0
    ensures var (r, outcome) := Reconcile(st, Some(SidebarButton(kind)), Some(DesignerDropArea), created);
      var before := if PageAt(st.pages, st.currentPage).Some? then PageAt(st.pages, st.currentPage).value else EmptyPage;
      var at := if |st.elements| <= |before.elements| then |st.elements| else |before.elements|;
      && outcome == Returned
      && r.elements == st.elements
      && PageAt(r.pages, st.currentPage) == Some(before.(elements := Insert(before.elements, at, created)))
  {
    var call := AddCall(|st.elements|, created);
    assert PlanDrop(st.elements, Some(SidebarButton(kind)), Some(DesignerDropArea), created) == Plan(st.elements, [call], Returned);
    assert st.(elements := st.elements) == st;
    ApplyOne(st, call);
    var r := AddSpec(st, |st.elements|, created);
    assert Reconcile(st, Some(SidebarButton(kind)), Some(DesignerDropArea), created) == (r, Returned);
  }

  /**
    A palette item dropped on a half of the root element at index i is inserted at i (top)
    or i + 1 (bottom); a target missing from the root throws "element not found" and
    changes nothing.
  */
  lemma PaletteOnHalfInserts(st: DesignerState, kind: Kind, t: string, overId: string, half: Half, created: Element)
    requires !st.isMultiPage
    ensures var (r, outcome) := Reconcile(st, Some(SidebarButton(kind)), Some(ElementHalf(t, overId, half)), created);
      var oi := IndexOf(st.elements, overId);
      && (oi == -1 ==> r == st && outcome == Threw(ElementNotFound))
      && (oi >= 0 ==> (outcome == Returned
            && r == st.(elements := Insert(st.elements, oi + Offset(half), created))))
  {
    var oi := IndexOf(st.elements, overId);
    if oi >= 0 {
      ApplyOne(st, AddCall(oi + Offset(half), created));
    }
  }

  /** The target is looked up in the root list even when a page is being edited. */
  lemma MultiPageLooksUpRoot(st: DesignerState, kind: Kind, t: string, overId: string, half: Half, created: Element)
    requires st.isMultiPage && IndexOf(st.elements, overId) == -1
    ensures Reconcile(st, Some(SidebarButton(kind)), Some(ElementHalf(t, overId, half)), created) == (st, Threw(ElementNotFound))
  {
  }

  /** A canvas element dropped on a half whose source or target is missing from the root throws and changes nothing. */
  lemma CanvasOnHalfMissing(st: DesignerState, t1: string, activeId: string, t2: string, overId: string, half: Half, created: Element)
    requires IndexOf(st.elements, activeId) == -1 || IndexOf(st.elements, overId) == -1
    ensures Reconcile(st, Some(CanvasElement(t1, activeId)), Some(ElementHalf(t2, overId, half)), created) == (st, Threw(ElementNotFound))
  {
  }

  /**
    A canvas element dropped on a half of a root element in single-page mode is a reorder
    of the root list; the type tags of the drag data and the fresh id play no part.
  */
  lemma CanvasOnHalfMoves(st: DesignerState, t1: string, activeId: string, t2: string, overId: string, half: Half, created: Element)
    requires !st.isMultiPage
    requires IndexOf(st.elements, activeId) >= 0 && IndexOf(st.elements, overId) >= 0
    ensures Reconcile(st, Some(CanvasElement(t1, activeId)), Some(ElementHalf(t2, overId, half)), created)
      == (st.(elements := Reorder(st.elements, activeId, overId, half)), Returned)
  {
    var ai := IndexOf(st.elements, activeId);
    var oi := IndexOf(st.elements, overId);
    var calls := [RemoveCall(activeId), AddCall(oi + Offset(half), st.elements[ai])];
    assert PlanDrop(st.elements, Some(CanvasElement(t1, activeId)), Some(ElementHalf(t2, overId, half)), created)
      == Plan(st.elements, calls, Returned);
    assert st.(elements := st.elements) == st;
    ApplyTwo(st, calls[0], calls[1]);
    var removed := RemoveSpec(st, activeId);
    assert removed == st.(elements := RemoveId(st.elements, activeId));
    assert AddSpec(removed, oi + Offset(half), st.elements[ai])
      == st.(elements := Splice(RemoveId(st.elements, activeId), oi + Offset(half), st.elements[ai]));
  }
}
