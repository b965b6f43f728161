/**
  The drop reconciler `onDragEnd` (src/components/Designer.tsx:24-150).

  A drop reads the root list `elements` (even in multi-page mode), may write that list
  directly (the container branch mutates the container's attribute bag in place and
  assigns `elements[parentIndex]`), and queues store calls that React applies after the
  handler has returned or thrown. `PlanDrop` states all three; `Reconcile` is the state
  they lead to.
*/
module Designer {
  import opened Wrappers
  import opened ElementModel
  import opened DragData
  import opened DesignerContext
  import Registry = FormElementsRegistry

  datatype DropError = ElementNotFound | TypeError

  /** How the handler ended: it returned, or it threw. */
  datatype Outcome = Returned | Threw(error: DropError)

  /** The root list after the handler's direct writes, the store calls it queued, and its outcome. */
  datatype Plan = Plan(root: seq<Element>, calls: seq<StoreCall>, outcome: Outcome)

  // ---- the container branch on loosely typed column values ----

  /** The ids of the element records in a column, in order. */
  function RecordIds(xs: seq<Value>): (ids: seq<string>)
    ensures |ids| <= |xs|
  {
    if xs == [] then []
    else if xs[0].Record? then [xs[0].element.id] + RecordIds(xs[1..])
    else RecordIds(xs[1..])
  }

  lemma {:induction false} RecordIdsAppend(a: seq<Value>, b: seq<Value>)
    ensures RecordIds(a + b) == RecordIds(a) + RecordIds(b)
  {
    if a == [] {
      assert a + b == b;
    } else {
      assert (a + b)[1..] == a[1..] + b;
      RecordIdsAppend(a[1..], b);
    }
  }

  lemma {:induction false} RecordIdsMember(xs: seq<Value>, id: string)
    ensures id in RecordIds(xs) <==> exists j :: 0 <= j < |xs| && xs[j].Record? && xs[j].element.id == id
  {
    if xs != [] {
      RecordIdsMember(xs[1..], id);
      if id in RecordIds(xs[1..]) {
        var j :| 0 <= j < |xs[1..]| && xs[1..][j].Record? && xs[1..][j].element.id == id;
        assert xs[j + 1] == xs[1..][j];
      }
      if exists j :: 0 <= j < |xs| && xs[j].Record? && xs[j].element.id == id {
        var j :| 0 <= j < |xs| && xs[j].Record? && xs[j].element.id == id;
        if j > 0 {
          assert xs[1..][j - 1] == xs[j];
        }
      }
    }
  }

  /** True when the entry is an element record with the id. */
  predicate HasId(v: Value, id: string) {
    v.Record? && v.element.id == id
  }

  /**
    `column.filter(el => el.id !== id)` over a list: `null.id` throws (None); any other
    entry that is not an element record has no id and is kept.
  */
  function FilterOutId(xs: seq<Value>, id: string): (r: Option<seq<Value>>)
    ensures r.None? <==> Null in xs
    ensures r.Some? ==> forall x :: x in r.value <==> x in xs && !HasId(x, id)
  {
    if xs == [] then Some([])
    else if xs[0].Null? then None
    else
      match FilterOutId(xs[1..], id)
      case None => None
      case Some(rest) => Some(if HasId(xs[0], id) then rest else [xs[0]] + rest)
  }

  /** The filter applied to a truthy column value: only an array has `filter`. */
  function FilterColumn(v: Value, id: string): (r: Option<seq<Value>>)
    ensures !v.List? ==> r.None?
    ensures v.List? ==> r == FilterOutId(v.items, id)
  {
    match v
    case List(xs) => FilterOutId(xs, id)
    case _ => None
  }

  /**
    `[...(column || [])]`: a falsy value gives no entries, an array its entries, a string
    its characters; spreading a number, `true` or a plain object throws (None).
  */
  function SpreadOrEmpty(v: Option<Value>): (r: Option<seq<Value>>)
    ensures !Truthy(v) ==> r == Some([])
    ensures v.Some? && v.value.List? ==> r == Some(v.value.items)
    ensures v.Some? && v.value.Str? ==>
      r.Some? && |r.value| == |v.value.s| && forall k :: 0 <= k < |r.value| ==> r.value[k] == Str([v.value.s[k]])
    ensures r.None? <==> Truthy(v) && (v.value.Num? || v.value.Bool? || v.value.Record?)
  {
    if !Truthy(v) then Some([])
    else
      match v.value
      case List(xs) => Some(xs)
      case Str(s) => Some(seq(|s|, k requires 0 <= k < |s| => Str([s[k]])))
      case _ => None
  }

  /**
    The append step of the container branch: if the parent is a container with a bag,
    the chosen column gets the element at its end, the root entry is replaced by the
    updated parent and an update of the parent is queued.
  */
  function AppendStep(root: seq<Element>, pi: nat, parent: Element, column: string, toAdd: Element, calls: seq<StoreCall>): Plan
    requires pi < |root|
  {
    if parent.typeName == ContainerType && parent.attrs.Some? then
      match SpreadOrEmpty(Lookup(parent.attrs, column))
      case None => Plan(root, calls, Threw(TypeError))
      case Some(items) =>
        var newParent := parent.(attrs := Some(parent.attrs.value[column := List(items + [Record(toAdd)])]));
        Plan(root[pi := newParent], calls + [UpdateCall(newParent.id, newParent)], Returned)
    else Plan(root, calls, Returned)
  }

  function ChosenColumn(columnId: string): string {
    if columnId == "left" then LeftColumn else RightColumn
  }

  function OtherColumn(columnId: string): string {
    if columnId == "left" then RightColumn else LeftColumn
  }

  /** The container branch (src/components/Designer.tsx:45-90). */
  function ColumnDrop(root: seq<Element>, active: ActiveData, columnId: string, parentId: string, created: Element): Plan {
    var pi := IndexOf(root, parentId);
    if pi == -1 then Plan(root, [], Returned)
    else
      var parent := root[pi];
      match active
      case SidebarButton(_) =>
        AppendStep(root, pi, parent, ChosenColumn(columnId), created, [])
      case CanvasElement(_, activeId) =>
        var ai := IndexOf(root, activeId);
        if ai == -1 then Plan(root, [], Returned)
        else
          var calls := [RemoveCall(activeId)];
          var other := OtherColumn(columnId);
          if parent.typeName == ContainerType && Truthy(Lookup(parent.attrs, other)) then
            match FilterColumn(parent.attrs.value[other], activeId)
            case None => Plan(root, calls, Threw(TypeError))
            case Some(kept) =>
              // the bag is shared with the root entry, so the filtered column is visible there at once
              var filtered := parent.(attrs := Some(parent.attrs.value[other := List(kept)]));
              AppendStep(root[pi := filtered], pi, filtered, ChosenColumn(columnId), root[ai], calls)
          else AppendStep(root, pi, parent, ChosenColumn(columnId), root[ai], calls)
  }

  /**
    `onDragEnd`'s case analysis, in its priority order; `created` is the element the
    dragged palette button's registry entry constructs (see `Created`).
  */
  function PlanDrop(root: seq<Element>, active: Option<ActiveData>, over: Option<OverData>, created: Element): Plan {
    if active.None? || over.None? then Plan(root, [], Returned)
    else
      match (active.value, over.value)
      case (SidebarButton(_), DesignerDropArea) =>
        Plan(root, [AddCall(|root|, created)], Returned)
      case (_, ColumnArea(columnId, parentId)) =>
        ColumnDrop(root, active.value, columnId, parentId, created)
      case (SidebarButton(_), ElementHalf(_, overId, half)) =>
        var oi := IndexOf(root, overId);
        if oi == -1 then Plan(root, [], Threw(ElementNotFound))
        else Plan(root, [AddCall(oi + Offset(half), created)], Returned)
      case (CanvasElement(_, activeId), ElementHalf(_, overId, half)) =>
        var ai := IndexOf(root, activeId);
        var oi := IndexOf(root, overId);
        if ai == -1 || oi == -1 then Plan(root, [], Threw(ElementNotFound))
        else Plan(root, [RemoveCall(activeId), AddCall(oi + Offset(half), root[ai])], Returned)
      case (CanvasElement(_, _), DesignerDropArea) =>
        Plan(root, [], Returned)
  }

  /**
    `FormElements[type].construct(idGenerator())` for a palette drag, with the generated id
    as a parameter; a canvas drag constructs nothing and the value is never read.
  */
  function Created(active: Option<ActiveData>, freshId: string): Element {
    if active.Some? && active.value.SidebarButton? then Registry.Construct(active.value.kind, freshId)
    else Element(freshId, "", None)
  }

  /** The store state after a drop, and how the handler ended. */
  function Reconcile(st: DesignerState, active: Option<ActiveData>, over: Option<OverData>, created: Element): (DesignerState, Outcome) {
    var p := PlanDrop(st.elements, active, over, created);
    (ApplyCalls(st.(elements := p.root), p.calls), p.outcome)
  }

  // ---- the handler as the program runs it ----

  /** The container branch of the handler (src/components/Designer.tsx:45-90). */
  method HandleColumnDrop(store: DesignerStore, a: ActiveData, columnId: string, parentId: string, created: Element)
    returns (pending: seq<StoreCall>, outcome: Outcome)
    modifies store
    ensures var p := ColumnDrop(old(store.elements), a, columnId, parentId, created);
      store.State() == old(store.State()).(elements := p.root) && pending == p.calls && outcome == p.outcome
  {
    pending := [];
    outcome := Returned;
    var elements := store.elements;
    var parentIndex := IndexOf(elements, parentId);
    if parentIndex == -1 {
      return;
    }
    var parent := elements[parentIndex];
    var elementToAdd: Element;
    if a.CanvasElement? {
      var activeId := a.elementId;
      var activeElementIndex := IndexOf(elements, activeId);
      if activeElementIndex == -1 {
        return;
      }
      elementToAdd := elements[activeElementIndex];
      pending := pending + [RemoveCall(activeId)];
      var otherColumn := OtherColumn(columnId);
      if parent.typeName == ContainerType && Truthy(Lookup(parent.attrs, otherColumn)) {
        var kept := FilterColumn(parent.attrs.value[otherColumn], activeId);
        if kept.None? {
          outcome := Threw(TypeError);
          return;
        }
        parent := parent.(attrs := Some(parent.attrs.value[otherColumn := List(kept.value)]));
        store.elements := store.elements[parentIndex := parent];
      }
    } else {
      elementToAdd := created;
    }
    var column := ChosenColumn(columnId);
    if parent.typeName == ContainerType && parent.attrs.Some? {
      var items := SpreadOrEmpty(Lookup(parent.attrs, column));
      if items.None? {
        outcome := Threw(TypeError);
        return;
      }
      parent := parent.(attrs := Some(parent.attrs.value[column := List(items.value + [Record(elementToAdd)])]));
      store.elements := store.elements[parentIndex := parent];
      pending := pending + [UpdateCall(parent.id, parent)];
    }
  }

  /**
    The branches of `onDragEnd` that only queue store calls: they read the root list and
    write nothing.
  */
  method QueueDrop(elements: seq<Element>, a: ActiveData, o: OverData, created: Element)
    returns (pending: seq<StoreCall>, outcome: Outcome)
    requires !o.ColumnArea?
    ensures var p := PlanDrop(elements, Some(a), Some(o), created);
      p.root == elements && pending == p.calls && outcome == p.outcome
  {
    pending := [];
    outcome := Returned;
    if a.SidebarButton? && o.DesignerDropArea? {
      var newElement := created;
      pending := pending + [AddCall(|elements|, newElement)];
      return;
    }
    if a.SidebarButton? && o.ElementHalf? {
      var newElement := created;
      var overElementIndex := IndexOf(elements, o.elementId);
      if overElementIndex == -1 {
        outcome := Threw(ElementNotFound);
        return;
      }
      var indexForNewElement := overElementIndex;
      if o.half == Bottom {
        indexForNewElement := overElementIndex + 1;
      }
      pending := pending + [AddCall(indexForNewElement, newElement)];
      return;
    }
    if a.CanvasElement? && o.ElementHalf? {
      var activeElementIndex := IndexOf(elements, a.elementId);
      var overElementIndex := IndexOf(elements, o.elementId);
      if activeElementIndex == -1 || overElementIndex == -1 {
        outcome := Threw(ElementNotFound);
        return;
      }
      var activeElement := elements[activeElementIndex];
      pending := pending + [RemoveCall(a.elementId)];
      var indexForNewElement := overElementIndex;
      if o.half == Bottom {
        indexForNewElement := overElementIndex + 1;
      }
      pending := pending + [AddCall(indexForNewElement, activeElement)];
    }
  }

  /**
    The body of `onDragEnd`: direct writes go to the store's root list as they happen (only
    the column branch makes any), and the store calls are returned in the order they were
    queued.
  */
  method HandleDrop(store: DesignerStore, active: Option<ActiveData>, over: Option<OverData>, freshId: string)
    returns (pending: seq<StoreCall>, outcome: Outcome)
    modifies store
    ensures var p := PlanDrop(old(store.elements), active, over, Created(active, freshId));
      store.State() == old(store.State()).(elements := p.root) && pending == p.calls && outcome == p.outcome
  {
    pending := [];
    outcome := Returned;
    if active.None? || over.None? {
      return;
    }
    var a, o := active.value, over.value;
    var created := Created(active, freshId);
    if o.ColumnArea? {
      pending, outcome := HandleColumnDrop(store, a, o.columnId, o.elementId, created);
      return;
    }
    pending, outcome := QueueDrop(store.elements, a, o, created);
  }

  /** A drop gesture: the handler runs, then React applies what it queued, even after a throw. */
  method OnDragEnd(store: DesignerStore, active: Option<ActiveData>, over: Option<OverData>, freshId: string)
    returns (outcome: Outcome)
    modifies store
    ensures (store.State(), outcome) == Reconcile(old(store.State()), active, over, Created(active, freshId))
  {
    var pending;
    pending, outcome := HandleDrop(store, active, over, freshId);
    store.Flush(pending);
  }
}
