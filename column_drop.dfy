/**
  Drops onto a column of a two-column container (src/components/Designer.tsx:45-90),
  stated on `Designer.Reconcile`. In single-page mode the direct write and the queued calls
  act on the same root list; in multi-page mode the container is still looked up and
  rewritten in the root list while the queued calls act on the current page.
*/
module ColumnDropProperties {
  import opened Wrappers
  import opened ElementModel
  import opened DragData
  import opened DesignerContext
  import opened Designer
  import opened DropProperties
  import Registry = FormElementsRegistry

  /** A column drop whose container is not in the root list does nothing and does not throw. */
  lemma ColumnParentMissing(st: DesignerState, active: ActiveData, columnId: string, parentId: string, created: Element)
    requires IndexOf(st.elements, parentId) == -1
    ensures Reconcile(st, Some(active), Some(ColumnArea(columnId, parentId)), created) == (st, Returned)
  {
    assert st.(elements := st.elements) == st;
  }

  /** Moving a canvas element that is not in the root list into a column does nothing and does not throw. */
  lemma ColumnSourceMissing(st: DesignerState, t: string, activeId: string, columnId: string, parentId: string, created: Element)
    requires IndexOf(st.elements, activeId) == -1
    ensures Reconcile(st, Some(CanvasElement(t, activeId)), Some(ColumnArea(columnId, parentId)), created) == (st, Returned)
  {
    assert st.(elements := st.elements) == st;
  }

  /** Writing an entry with the same id at the first position holding that id keeps that position first. */
  lemma IndexOfWrite(s: seq<Element>, i: nat, e: Element)
    requires i < |s| && IndexOf(s, e.id) == i
    ensures IndexOf(s[i := e], e.id) == i
  {
    assert forall j :: 0 <= j < i ==> s[i := e][j] == s[j];
    IndexOfFirst(s[i := e], i);
  }

  /** Replacing the first entry with an id by the entry already there changes nothing. */
  lemma ReplaceFirstSame(s: seq<Element>, id: string, e: Element)
    requires IndexOf(s, id) >= 0 && s[IndexOf(s, id)] == e
    ensures ReplaceFirst(s, id, e) == s
  {
  }

  /**
    The direct write of the updated container followed by the queued update of the same
    container leaves the list with the updated container at its place.
  */
  lemma WriteThenUpdate(st: DesignerState, pi: nat, np: Element)
    requires !st.isMultiPage && pi < |st.elements| && IndexOf(st.elements, np.id) == pi
    ensures ApplyCalls(st.(elements := st.elements[pi := np]), [UpdateCall(np.id, np)])
            == st.(elements := st.elements[pi := np])
  {
    var st' := st.(elements := st.elements[pi := np]);
    ApplyOne(st', UpdateCall(np.id, np));
    IndexOfWrite(st.elements, pi, np);
    ReplaceFirstSame(st'.elements, np.id, np);
  }

  /**
    A palette item dropped on a column of a container appends a fresh element of that kind
    to the end of the chosen column ('left' chooses the left column, anything else the
    right one); the other column and the rest of the root list are unchanged. A parent that
    is not a container with a bag is left alone, and a chosen column holding a number,
    boolean or record makes the spread throw.
  */
  lemma PaletteIntoColumn(st: DesignerState, kind: Kind, columnId: string, parentId: string, created: Element)
    requires !st.isMultiPage && IndexOf(st.elements, parentId) >= 0
    ensures var root := st.elements;
      var pi := IndexOf(root, parentId);
      var p := root[pi];
      var column := ChosenColumn(columnId);
      var (r, outcome) := Reconcile(st, Some(SidebarButton(kind)), Some(ColumnArea(columnId, parentId)), created);
      && (p.typeName != ContainerType || p.attrs.None? ==> r == st && outcome == Returned)
      && (p.typeName == ContainerType && p.attrs.Some? && SpreadOrEmpty(Lookup(p.attrs, column)).None? ==>
            r == st && outcome == Threw(TypeError))
      && (p.typeName == ContainerType && p.attrs.Some? && SpreadOrEmpty(Lookup(p.attrs, column)).Some? ==>
            var items := SpreadOrEmpty(Lookup(p.attrs, column)).value;
            var np := p.(attrs := Some(p.attrs.value[column := List(items + [Record(created)])]));
            && outcome == Returned
            && r == st.(elements := root[pi := np])
            && Lookup(np.attrs, OtherColumn(columnId)) == Lookup(p.attrs, OtherColumn(columnId)))
  {
    var root := st.elements;
    var pi := IndexOf(root, parentId);
    var p := root[pi];
    var column := ChosenColumn(columnId);
    assert st.(elements := st.elements) == st;
    if p.typeName == ContainerType && p.attrs.Some? && SpreadOrEmpty(Lookup(p.attrs, column)).Some? {
      var items := SpreadOrEmpty(Lookup(p.attrs, column)).value;
      var np := p.(attrs := Some(p.attrs.value[column := List(items + [Record(created)])]));
      WriteThenUpdate(st, pi, np);
    }
  }

  /**
    The container after an existing element moved into it: every record with the moved
    id is filtered out of the other column, and the element is appended to the chosen one.
  */
  function MovedInto(p: Element, columnId: string, x: Element, activeId: string, items: seq<Value>, others: seq<Value>): Element
    requires p.attrs.Some? && Null !in others
  {
    var kept := FilterOutId(others, activeId).value;
    p.(attrs := Some(p.attrs.value[OtherColumn(columnId) := List(kept)][ChosenColumn(columnId) := List(items + [Record(x)])]))
  }

  /**
    An element of the root list dropped on a column of a container whose columns are lists:
    the container is rewritten in place (the moved element filtered out of the other column
    and appended to the chosen one), then the queued removal takes every root entry with the
    moved id out, and the queued update of the container changes nothing further.
  */
  lemma CanvasIntoColumn(st: DesignerState, t: string, activeId: string, columnId: string, parentId: string,
                         created: Element, items: seq<Value>, others: seq<Value>)
    requires !st.isMultiPage
    requires IndexOf(st.elements, activeId) >= 0 && IndexOf(st.elements, parentId) >= 0
    requires var p := st.elements[IndexOf(st.elements, parentId)];
      && p.typeName == ContainerType && p.attrs.Some?
      && Lookup(p.attrs, ChosenColumn(columnId)) == Some(List(items))
      && Lookup(p.attrs, OtherColumn(columnId)) == Some(List(others)) && Null !in others
    ensures var root := st.elements;
      var pi := IndexOf(root, parentId);
      var np := MovedInto(root[pi], columnId, root[IndexOf(root, activeId)], activeId, items, others);
      Reconcile(st, Some(CanvasElement(t, activeId)), Some(ColumnArea(columnId, parentId)), created)
        == (st.(elements := RemoveId(root[pi := np], activeId)), Returned)
  {
    var root := st.elements;
    var pi := IndexOf(root, parentId);
    var np := MovedInto(root[pi], columnId, root[IndexOf(root, activeId)], activeId, items, others);
    var calls := [RemoveCall(activeId), UpdateCall(parentId, np)];
    CanvasColumnPlan(root, t, activeId, columnId, parentId, created, items, others);
    var st' := st.(elements := root[pi := np]);
    ApplyTwo(st', calls[0], calls[1]);
    IndexOfWrite(root, pi, np);
    MovedAfterRemove(root[pi := np], pi, activeId, np);
    assert RemoveSpec(st', activeId) == st.(elements := RemoveId(root[pi := np], activeId));
  }

  /**
    Multi-page mode: the container is found in the root list and rewritten there at once,
    while the queued update goes to the current page, where it changes nothing unless that
    page holds an entry with the container's id; the other pages are left alone.
  */
  lemma {:induction false} PaletteIntoColumnMultiPage(st: DesignerState, kind: Kind, columnId: string, parentId: string, created: Element)
    requires st.isMultiPage && IndexOf(st.elements, parentId) >= 0
    ensures var root := st.elements;
      var pi := IndexOf(root, parentId);
      var p := root[pi];
      var column := ChosenColumn(columnId);
      var (r, outcome) := Reconcile(st, Some(SidebarButton(kind)), Some(ColumnArea(columnId, parentId)), created);
      && (p.typeName != ContainerType || p.attrs.None? ==> r == st && outcome == Returned)
      && (p.typeName == ContainerType && p.attrs.Some? && SpreadOrEmpty(Lookup(p.attrs, column)).None? ==>
            r == st && outcome == Threw(TypeError))
      && (p.typeName == ContainerType && p.attrs.Some? && SpreadOrEmpty(Lookup(p.attrs, column)).Some? ==>
            var items := SpreadOrEmpty(Lookup(p.attrs, column)).value;
            var np := p.(attrs := Some(p.attrs.value[column := List(items + [Record(created)])]));
            && outcome == Returned
            && r.elements == root[pi := np]
            && KeepsOtherFields(st, r)
            && PageUpdated(st, r, [], parentId, np))
  {
    var root := st.elements;
    var pi := IndexOf(root, parentId);
    var p := root[pi];
    var column := ChosenColumn(columnId);
    assert st.(elements := st.elements) == st;
    if p.typeName == ContainerType && p.attrs.Some? && SpreadOrEmpty(Lookup(p.attrs, column)).Some? {
      var items := SpreadOrEmpty(Lookup(p.attrs, column)).value;
      var np := p.(attrs := Some(p.attrs.value[column := List(items + [Record(created)])]));
      assert np.id == parentId;
      assert PlanDrop(root, Some(SidebarButton(kind)), Some(ColumnArea(columnId, parentId)), created)
        == Plan(root[pi := np], [UpdateCall(parentId, np)], Returned);
      var st' := st.(elements := root[pi := np]);
      ApplyOne(st', UpdateCall(parentId, np));
      UpdateOnPage(st', parentId, np);
    }
  }

  /**
    The current page after queued removals of the ids in `removed` and then an update of the
    container: a missing page stays missing and the pages are unchanged; an existing page loses
    the removed entries and has its first entry with the container's id replaced, which
    changes nothing when no such entry is left; no other page changes.
  */
  predicate PageUpdated(st: DesignerState, r: DesignerState, removed: seq<string>, parentId: string, np: Element) {
    var cp := st.currentPage;
    && (PageAt(st.pages, cp).None? ==> r.pages == st.pages)
    && (PageAt(st.pages, cp).Some? ==>
          var page := PageAt(st.pages, cp).value;
          var left := if removed == [] then page.elements else RemoveId(page.elements, removed[0]);
          && r.pages == st.pages[cp := Some(page.(elements := ReplaceFirst(left, parentId, np)))]
          && (IndexOf(left, parentId) == -1 ==> r.pages == st.pages[cp := Some(page.(elements := left))]))
  }

  /** The update call alone in multi-page mode. */
  lemma UpdateOnPage(st: DesignerState, parentId: string, np: Element)
    requires st.isMultiPage
    ensures PageUpdated(st, UpdateSpec(st, parentId, np), [], parentId, np)
  {
    if PageAt(st.pages, st.currentPage).Some? {
      var page := PageAt(st.pages, st.currentPage).value;
      if IndexOf(page.elements, parentId) == -1 {
        assert page.(elements := page.elements) == page;
      }
    }
  }

  /**
    Multi-page mode, an element of the root list moved into a column: the container is
    rewritten in the root list, and the dragged element is not removed from it (the queued
    removal acts on the current page), so it ends up both at its old root position and at
    the end of the chosen column. On the current page every entry with the dragged id goes,
    and the queued update replaces the page's first entry with the container's id, if any.
  */
  lemma {:induction false} CanvasIntoColumnMultiPage(st: DesignerState, t: string, activeId: string, columnId: string, parentId: string,
                                  created: Element, items: seq<Value>, others: seq<Value>)
    requires st.isMultiPage
    requires IndexOf(st.elements, activeId) >= 0 && IndexOf(st.elements, parentId) >= 0
    requires var p := st.elements[IndexOf(st.elements, parentId)];
      && p.typeName == ContainerType && p.attrs.Some?
      && Lookup(p.attrs, ChosenColumn(columnId)) == Some(List(items))
      && Lookup(p.attrs, OtherColumn(columnId)) == Some(List(others)) && Null !in others
    ensures var root := st.elements;
      var pi := IndexOf(root, parentId);
      var ai := IndexOf(root, activeId);
      var np := MovedInto(root[pi], columnId, root[ai], activeId, items, others);
      var (r, outcome) := Reconcile(st, Some(CanvasElement(t, activeId)), Some(ColumnArea(columnId, parentId)), created);
      && outcome == Returned
      && r.elements == root[pi := np]
      && (ai != pi ==> r.elements[ai] == root[ai])
      && Lookup(r.elements[pi].attrs, ChosenColumn(columnId)) == Some(List(items + [Record(root[ai])]))
      && KeepsOtherFields(st, r)
      && PageUpdated(st, r, [activeId], parentId, np)
  {
    var root := st.elements;
    var pi := IndexOf(root, parentId);
    var ai := IndexOf(root, activeId);
    var np := MovedInto(root[pi], columnId, root[ai], activeId, items, others);
    CanvasColumnPlan(root, t, activeId, columnId, parentId, created, items, others);
    var st' := st.(elements := root[pi := np]);
    ApplyTwo(st', RemoveCall(activeId), UpdateCall(parentId, np));
    MovedIntoColumns(root[pi], columnId, root[ai], activeId, items, others);
    RemoveThenUpdateOnPage(st', activeId, parentId, np);
  }

  /** The removal then the update in multi-page mode. */
  lemma RemoveThenUpdateOnPage(st: DesignerState, activeId: string, parentId: string, np: Element)
    requires st.isMultiPage
    ensures PageUpdated(st, UpdateSpec(RemoveSpec(st, activeId), parentId, np), [activeId], parentId, np)
  {
    var st1 := RemoveSpec(st, activeId);
    if PageAt(st.pages, st.currentPage).Some? {
      var page := PageAt(st.pages, st.currentPage).value;
      var left := RemoveId(page.elements, activeId);
      assert PageAt(st1.pages, st.currentPage) == Some(page.(elements := left));
      assert st1.pages == st.pages[st.currentPage := Some(page.(elements := left))];
    }
  }

  /**
    So the isolation of the root list in multi-page mode holds for store calls, not for a
    whole drop gesture: a palette item dropped into a column of the one root container, with
    one empty page open, rewrites the root list and leaves the page as it was.
  */
  lemma MultiPageColumnDropWritesRoot(created: Element)
    ensures var c := Element("c", ContainerType, Some(map[LeftColumn := List([]), RightColumn := List([])]));
      var st := DesignerState([c], None, "default", true, [Some(EmptyPage)], 0);
      var (r, outcome) := Reconcile(st, Some(SidebarButton(TextField)), Some(ColumnArea("left", "c")), created);
      && outcome == Returned
      && r.elements != st.elements
      && |r.elements| == 1 && Lookup(r.elements[0].attrs, LeftColumn) == Some(List([Record(created)]))
      && r.pages == st.pages
  {
    var c := Element("c", ContainerType, Some(map[LeftColumn := List([]), RightColumn := List([])]));
    var st := DesignerState([c], None, "default", true, [Some(EmptyPage)], 0);
    assert IndexOf(st.elements, "c") == 0;
    assert SpreadOrEmpty(Lookup(c.attrs, ChosenColumn("left"))) == Some([]);
    PaletteIntoColumnMultiPage(st, TextField, "left", "c", created);
    var np := c.(attrs := Some(c.attrs.value[LeftColumn := List([] + [Record(created)])]));
    assert [] + [Record(created)] == [Record(created)];
    assert Lookup(np.attrs, LeftColumn) == Some(List([Record(created)]));
    assert np != c;
    assert st.elements[0 := np] != st.elements by {
      assert st.elements[0 := np][0] != st.elements[0];
    }
    assert IndexOf(EmptyPage.elements, "c") == -1;
    assert st.pages[0 := Some(EmptyPage.(elements := EmptyPage.elements))] == st.pages;
  }

  /** The handler's plan for such a move: the container written in place, then a removal and an update queued. */
  lemma {:induction false} CanvasColumnPlan(root: seq<Element>, t: string, activeId: string, columnId: string, parentId: string,
                         created: Element, items: seq<Value>, others: seq<Value>)
    requires IndexOf(root, activeId) >= 0 && IndexOf(root, parentId) >= 0
    requires var p := root[IndexOf(root, parentId)];
      && p.typeName == ContainerType && p.attrs.Some?
      && Lookup(p.attrs, ChosenColumn(columnId)) == Some(List(items))
      && Lookup(p.attrs, OtherColumn(columnId)) == Some(List(others)) && Null !in others
    ensures var pi := IndexOf(root, parentId);
      var np := MovedInto(root[pi], columnId, root[IndexOf(root, activeId)], activeId, items, others);
      PlanDrop(root, Some(CanvasElement(t, activeId)), Some(ColumnArea(columnId, parentId)), created)
        == Plan(root[pi := np], [RemoveCall(activeId), UpdateCall(parentId, np)], Returned)
  {
    var pi := IndexOf(root, parentId);
    var ai := IndexOf(root, activeId);
    var p := root[pi];
    var other, column := OtherColumn(columnId), ChosenColumn(columnId);
    var kept := FilterOutId(others, activeId).value;
    var filtered := p.(attrs := Some(p.attrs.value[other := List(kept)]));
    assert Lookup(filtered.attrs, column) == Some(List(items)) by {
      assert column != other;
    }
    var np := MovedInto(p, columnId, root[ai], activeId, items, others);
    assert filtered.(attrs := Some(filtered.attrs.value[column := List(items + [Record(root[ai])])])) == np;
    assert root[pi := filtered][pi := np] == root[pi := np];
    assert FilterColumn(p.attrs.value[other], activeId) == Some(kept);
    assert ColumnDrop(root, CanvasElement(t, activeId), columnId, parentId, created)
      == AppendStep(root[pi := filtered], pi, filtered, column, root[ai], [RemoveCall(activeId)]);
    assert SpreadOrEmpty(Lookup(filtered.attrs, column)) == Some(items);
    assert np.id == parentId;
    assert PlanDrop(root, Some(CanvasElement(t, activeId)), Some(ColumnArea(columnId, parentId)), created)
      == ColumnDrop(root, CanvasElement(t, activeId), columnId, parentId, created);
  }

  /**
    What a move into a column leaves behind: no root entry carries the moved id any more,
    the other column holds no record with it, the chosen column holds one more record with
    it at its end, and the updated container stays in the root list unless it was itself
    the element moved.
  */
  lemma ColumnMoveEffect(st: DesignerState, t: string, activeId: string, columnId: string, parentId: string,
                         created: Element, items: seq<Value>, others: seq<Value>)
    requires !st.isMultiPage
    requires IndexOf(st.elements, activeId) >= 0 && IndexOf(st.elements, parentId) >= 0
    requires var p := st.elements[IndexOf(st.elements, parentId)];
      && p.typeName == ContainerType && p.attrs.Some?
      && Lookup(p.attrs, ChosenColumn(columnId)) == Some(List(items))
      && Lookup(p.attrs, OtherColumn(columnId)) == Some(List(others)) && Null !in others
    ensures var root := st.elements;
      var x := root[IndexOf(root, activeId)];
      var kept := FilterOutId(others, activeId).value;
      var np := MovedInto(root[IndexOf(root, parentId)], columnId, x, activeId, items, others);
      var (r, outcome) := Reconcile(st, Some(CanvasElement(t, activeId)), Some(ColumnArea(columnId, parentId)), created);
      && outcome == Returned
      && IndexOf(r.elements, activeId) == -1
      && (activeId != parentId ==> np in r.elements)
      && Lookup(np.attrs, OtherColumn(columnId)) == Some(List(kept))
      && activeId !in RecordIds(kept)
      && Lookup(np.attrs, ChosenColumn(columnId)) == Some(List(items + [Record(x)]))
      && Count(RecordIds(items + [Record(x)]), activeId) == Count(RecordIds(items), activeId) + 1
  {
    var root := st.elements;
    var pi := IndexOf(root, parentId);
    var x := root[IndexOf(root, activeId)];
    var kept := FilterOutId(others, activeId).value;
    var np := MovedInto(root[pi], columnId, x, activeId, items, others);
    CanvasIntoColumn(st, t, activeId, columnId, parentId, created, items, others);
    RootAfterMove(root, pi, np, activeId);
    MovedIntoColumns(root[pi], columnId, x, activeId, items, others);
  }

  /** The columns of the rewritten container. */
  lemma MovedIntoColumns(p: Element, columnId: string, x: Element, activeId: string, items: seq<Value>, others: seq<Value>)
    requires p.attrs.Some? && Null !in others
    ensures var np := MovedInto(p, columnId, x, activeId, items, others);
      var kept := FilterOutId(others, activeId).value;
      && np.id == p.id
      && Lookup(np.attrs, OtherColumn(columnId)) == Some(List(kept))
      && activeId !in RecordIds(kept)
      && Lookup(np.attrs, ChosenColumn(columnId)) == Some(List(items + [Record(x)]))
      && Count(RecordIds(items + [Record(x)]), x.id) == Count(RecordIds(items), x.id) + 1
  {
    assert OtherColumn(columnId) != ChosenColumn(columnId);
    FilterOutIdRemoves(others, activeId);
    AppendCountsOnce(items, x);
  }

  /** The root list after the container write and the removal: the moved id is gone, the container is kept. */
  lemma RootAfterMove(root: seq<Element>, pi: nat, np: Element, activeId: string)
    requires pi < |root|
    ensures IndexOf(RemoveId(root[pi := np], activeId), activeId) == -1
    ensures np.id != activeId ==> np in RemoveId(root[pi := np], activeId)
  {
    RemoveIdRemoves(root[pi := np], activeId);
    RemoveIdMembers(root[pi := np], activeId);
    assert root[pi := np][pi] == np;
  }

  /** After a removal no entry has the removed id. */
  lemma RemoveIdRemoves(s: seq<Element>, id: string)
    ensures IndexOf(RemoveId(s, id), id) == -1
  {
    var after := RemoveId(s, id);
    RemoveIdMembers(s, id);
    forall j | 0 <= j < |after| ensures after[j].id != id {
      assert after[j] in after;
    }
  }

  /** A column filter on a list without nulls leaves no record with the id. */
  lemma FilterOutIdRemoves(xs: seq<Value>, id: string)
    requires Null !in xs
    ensures id !in RecordIds(FilterOutId(xs, id).value)
  {
    var kept := FilterOutId(xs, id).value;
    forall j | 0 <= j < |kept| && kept[j].Record? ensures kept[j].element.id != id {
      assert kept[j] in kept;
    }
    RecordIdsMember(kept, id);
  }

  /** Appending a record adds exactly one occurrence of its id to the column's ids. */
  lemma AppendCountsOnce(items: seq<Value>, x: Element)
    ensures Count(RecordIds(items + [Record(x)]), x.id) == Count(RecordIds(items), x.id) + 1
  {
    RecordIdsAppend(items, [Record(x)]);
    assert RecordIds([Record(x)]) == [x.id];
    CountAppend(RecordIds(items), [x.id], x.id);
  }

  /** Dropping a container on one of its own columns takes the container, and all it holds, out of the form. */
  lemma SelfColumnDrop(st: DesignerState, t: string, parentId: string, columnId: string, created: Element,
                       items: seq<Value>, others: seq<Value>)
    requires !st.isMultiPage && IndexOf(st.elements, parentId) >= 0
    requires var p := st.elements[IndexOf(st.elements, parentId)];
      && p.typeName == ContainerType && p.attrs.Some?
      && Lookup(p.attrs, ChosenColumn(columnId)) == Some(List(items))
      && Lookup(p.attrs, OtherColumn(columnId)) == Some(List(others)) && Null !in others
    ensures var (r, outcome) := Reconcile(st, Some(CanvasElement(t, parentId)), Some(ColumnArea(columnId, parentId)), created);
      outcome == Returned && IndexOf(r.elements, parentId) == -1 && r.pages == st.pages
  {
    ColumnMoveEffect(st, t, parentId, columnId, parentId, created, items, others);
    CanvasIntoColumn(st, t, parentId, columnId, parentId, created, items, others);
  }

  /** After the removal the queued update finds the container (if it survived) already up to date. */
  lemma MovedAfterRemove(s: seq<Element>, pi: nat, activeId: string, np: Element)
    requires pi < |s| && s[pi] == np && IndexOf(s, np.id) == pi
    ensures ReplaceFirst(RemoveId(s, activeId), np.id, np) == RemoveId(s, activeId)
  {
    var r := RemoveId(s, activeId);
    if IndexOf(r, np.id) >= 0 {
      RemoveIdKeepsFirst(s, np.id, activeId);
      ReplaceFirstSame(r, np.id, np);
    }
  }

  /** The first entry with an id that survives a removal is the first entry with that id before it. */
  lemma {:induction false} RemoveIdKeepsFirst(s: seq<Element>, id: string, removed: string)
    requires IndexOf(s, id) >= 0 && IndexOf(RemoveId(s, removed), id) >= 0
    ensures RemoveId(s, removed)[IndexOf(RemoveId(s, removed), id)] == s[IndexOf(s, id)]
  {
    if s[0].id == removed {
      if s[0].id == id {
        RemoveIdMembers(s, removed);
        assert false;
      } else {
        RemoveIdKeepsFirst(s[1..], id, removed);
      }
    } else if s[0].id != id {
      RemoveIdKeepsFirst(s[1..], id, removed);
    }
  }
}
