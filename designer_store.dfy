/**
  The designer store (src/context/DesignerContext.tsx): the edited document and the three
  edits every gesture is built from. In single-page mode the edits work on the root list
  `elements`; in multi-page mode on `pages[currentPage].elements`.

  `DesignerState` is the value of the store's fields; each method of `DesignerStore` is
  proved against the pure function on that value which states what the edit means.
*/
module DesignerContext {
  import opened Wrappers
  import opened ElementModel

  datatype NavigationType = Tabs | ProgressBar

  datatype PageConfig = PageConfig(elements: seq<Element>, navigationType: NavigationType, showPageNumbers: bool)

  /** The page `addElement` materialises when the current page does not exist. */
  const EmptyPage: PageConfig := PageConfig([], Tabs, true)

  /**
    The store's fields. An entry `None` of `pages` is a hole or `undefined`: writing past
    the end of a JavaScript array leaves holes below the written index.
  */
  datatype DesignerState = DesignerState(
    elements: seq<Element>,
    selectedElement: Option<Element>,
    theme: string,
    isMultiPage: bool,
    pages: seq<Option<PageConfig>>,
    currentPage: int)

  const InitialState: DesignerState := DesignerState([], None, "default", false, [], 0)

  // ---- sequence surgery ----

  /** The position `splice(index, 0, x)` inserts at: negative indices count from the end, and both ends clamp. */
  function SpliceIndex(len: nat, index: int): (k: nat)
    ensures k <= len
    ensures 0 <= index <= len ==> k == index
    ensures index > len ==> k == len
    ensures index < 0 ==> k == (if len + index < 0 then 0 else len + index)
  {
    if index < 0 then (if len + index < 0 then 0 else len + index)
    else if index > len then len
    else index
  }

  /** Insertion at a position: everything before stays, everything after shifts by one. */
  function Insert(s: seq<Element>, k: nat, e: Element): (r: seq<Element>)
    requires k <= |s|
    ensures |r| == |s| + 1 && r[k] == e
    ensures forall j :: 0 <= j < k ==> r[j] == s[j]
    ensures forall j :: k < j < |r| ==> r[j] == s[j - 1]
  {
    s[..k] + [e] + s[k..]
  }

  /** `[...s].splice(index, 0, e)`. */
  function Splice(s: seq<Element>, index: int, e: Element): seq<Element> {
    Insert(s, SpliceIndex(|s|, index), e)
  }

  /** `s.filter(el => el.id !== id)`. */
  function RemoveId(s: seq<Element>, id: string): (r: seq<Element>)
    ensures |r| <= |s|
  {
    if s == [] then []
    else if s[0].id == id then RemoveId(s[1..], id)
    else [s[0]] + RemoveId(s[1..], id)
  }

  /** RemoveId keeps exactly the entries whose id differs. */
  lemma {:induction false} RemoveIdMembers(s: seq<Element>, id: string)
    ensures forall x :: x in RemoveId(s, id) <==> x in s && x.id != id
  {
    if s != [] {
      RemoveIdMembers(s[1..], id);
      assert s == [s[0]] + s[1..];
    }
  }

  /** RemoveId keeps the order of what it keeps: it distributes over concatenation. */
  lemma {:induction false} RemoveIdAppend(a: seq<Element>, b: seq<Element>, id: string)
    ensures RemoveId(a + b, id) == RemoveId(a, id) + RemoveId(b, id)
  {
    if a == [] {
      assert a + b == b;
    } else {
      assert (a + b)[1..] == a[1..] + b;
      RemoveIdAppend(a[1..], b, id);
    }
  }

  /** Removing an id no entry has changes nothing. */
  lemma {:induction false} RemoveIdAbsent(s: seq<Element>, id: string)
    requires forall j :: 0 <= j < |s| ==> s[j].id != id
    ensures RemoveId(s, id) == s
  {
    if s != [] {
      RemoveIdAbsent(s[1..], id);
      assert s == [s[0]] + s[1..];
    }
  }

  /** With unique ids, removing the id at position i removes exactly that entry. */
  lemma {:induction false} RemoveIdUnique(s: seq<Element>, i: nat)
    requires i < |s| && UniqueIds(s)
    ensures RemoveId(s, s[i].id) == s[..i] + s[i + 1..]
  {
    var id := s[i].id;
    var tail := s[1..];
    if i == 0 {
      assert forall j :: 0 <= j < |tail| ==> tail[j].id != id by {
        forall j | 0 <= j < |tail| ensures tail[j].id != id {
          assert s[0].id != s[j + 1].id;
        }
      }
      RemoveIdAbsent(tail, id);
    } else {
      assert s[0].id != id;
      assert tail[i - 1] == s[i];
      RemoveIdUnique(tail, i - 1);
      assert s[..i] == [s[0]] + tail[..i - 1];
      assert s[i + 1..] == tail[i..];
    }
  }

  /**
    `findIndex` then an index write: the first entry with the id is replaced and nothing
    else changes; with no such entry the list is unchanged (the write goes to index -1,
    which is a property and not an entry).
  */
  function ReplaceFirst(s: seq<Element>, id: string, e: Element): (r: seq<Element>)
    ensures |r| == |s|
    ensures IndexOf(s, id) == -1 ==> r == s
    ensures IndexOf(s, id) >= 0 ==> r[IndexOf(s, id)] == e
    ensures forall j :: 0 <= j < |s| && j != IndexOf(s, id) ==> r[j] == s[j]
  {
    if s == [] then []
    else if s[0].id == id then [e] + s[1..]
    else [s[0]] + ReplaceFirst(s[1..], id, e)
  }

  /** `newPages[k] = v` on a copy: a write past the end leaves holes below k. */
  function SetAt(pages: seq<Option<PageConfig>>, k: nat, v: Option<PageConfig>): (r: seq<Option<PageConfig>>)
    ensures |r| == (if k < |pages| then |pages| else k + 1)
    ensures r[k] == v
    ensures forall j :: 0 <= j < |r| && j != k ==> r[j] == (if j < |pages| then pages[j] else None)
  {
    if k < |pages| then pages[k := v]
    else pages + seq(k - |pages|, _ => None) + [v]
  }

  /** `pages[currentPage]`, None when it is out of range or a hole. */
  function PageAt(pages: seq<Option<PageConfig>>, cp: int): Option<PageConfig> {
    if 0 <= cp < |pages| then pages[cp] else None
  }

  /**
    `pages[0]?.config.navigationType || 'tabs'`, read both when a page is added in the
    settings and when the preview picks its navigation style: page 0's style, and 'tabs'
    when there is no page 0 (no pages, or a hole at 0).
  */
  function FirstNavigationType(pages: seq<Option<PageConfig>>): (t: NavigationType)
    ensures PageAt(pages, 0).None? ==> t == Tabs
    ensures |pages| == 0 ==> t == Tabs
    ensures PageAt(pages, 0).Some? ==> t == PageAt(pages, 0).value.navigationType
  {
    if PageAt(pages, 0).Some? then PageAt(pages, 0).value.navigationType else Tabs
  }

  /** True when the edit touched neither the root list nor any page except the current one. */
  predicate OnlyCurrentPageChanged(st: DesignerState, r: DesignerState) {
    && r.elements == st.elements
    && |r.pages| >= |st.pages|
    && forall j :: 0 <= j < |r.pages| && j != st.currentPage ==>
         r.pages[j] == (if j < |st.pages| then st.pages[j] else None)
  }

  /** Only `elements` and `pages` are ever written by the three edits. */
  predicate KeepsOtherFields(st: DesignerState, r: DesignerState) {
    r == st.(elements := r.elements, pages := r.pages)
  }

  // ---- the three edits on the state value ----

  /**
    `addElement(index, e)`. Single page: splice into the root list. Multi page: splice into
    the current page, first materialising an empty 'tabs' page with numbers on when it does
    not exist; a negative current page writes a property, not an entry, so `pages` is unchanged.
  */
  function AddSpec(st: DesignerState, index: int, e: Element): (r: DesignerState)
    ensures KeepsOtherFields(st, r)
    ensures !st.isMultiPage ==> r.pages == st.pages
    ensures !st.isMultiPage ==> r.elements == Insert(st.elements, SpliceIndex(|st.elements|, index), e)
    ensures st.isMultiPage ==> OnlyCurrentPageChanged(st, r)
    ensures st.isMultiPage && st.currentPage < 0 ==> r.pages == st.pages
    ensures st.isMultiPage && st.currentPage >= 0 ==>
      var before := if PageAt(st.pages, st.currentPage).Some? then PageAt(st.pages, st.currentPage).value else EmptyPage;
      PageAt(r.pages, st.currentPage) == Some(before.(elements := Insert(before.elements, SpliceIndex(|before.elements|, index), e)))
  {
    if !st.isMultiPage then st.(elements := Splice(st.elements, index, e))
    else if st.currentPage < 0 then st
    else
      var before := if PageAt(st.pages, st.currentPage).Some? then PageAt(st.pages, st.currentPage).value else EmptyPage;
      st.(pages := SetAt(st.pages, st.currentPage, Some(before.(elements := Splice(before.elements, index, e)))))
  }

  /**
    `removeElement(id)`: every top-level entry with the id goes, on the root list or on the
    current page if it exists; entries inside container columns are never looked at.
  */
  function RemoveSpec(st: DesignerState, id: string): (r: DesignerState)
    ensures KeepsOtherFields(st, r)
    ensures !st.isMultiPage ==> r.pages == st.pages && r.elements == RemoveId(st.elements, id)
    ensures st.isMultiPage ==> OnlyCurrentPageChanged(st, r) && |r.pages| == |st.pages|
    ensures st.isMultiPage && PageAt(st.pages, st.currentPage).None? ==> r == st
    ensures st.isMultiPage && PageAt(st.pages, st.currentPage).Some? ==>
      var before := PageAt(st.pages, st.currentPage).value;
      PageAt(r.pages, st.currentPage) == Some(before.(elements := RemoveId(before.elements, id)))
  {
    if !st.isMultiPage then st.(elements := RemoveId(st.elements, id))
    else match PageAt(st.pages, st.currentPage)
      case None => st
      case Some(page) => st.(pages := st.pages[st.currentPage := Some(page.(elements := RemoveId(page.elements, id)))])
  }

  /**
    `updateElement(id, e)`: the first entry with the id is replaced, on the root list or on
    the current page if it exists; an absent id changes no entry.
  */
  function UpdateSpec(st: DesignerState, id: string, e: Element): (r: DesignerState)
    ensures KeepsOtherFields(st, r)
    ensures !st.isMultiPage ==> r.pages == st.pages && r.elements == ReplaceFirst(st.elements, id, e)
    ensures st.isMultiPage ==> OnlyCurrentPageChanged(st, r) && |r.pages| == |st.pages|
    ensures st.isMultiPage && PageAt(st.pages, st.currentPage).None? ==> r == st
    ensures st.isMultiPage && PageAt(st.pages, st.currentPage).Some? ==>
      var before := PageAt(st.pages, st.currentPage).value;
      PageAt(r.pages, st.currentPage) == Some(before.(elements := ReplaceFirst(before.elements, id, e)))
  {
    if !st.isMultiPage then st.(elements := ReplaceFirst(st.elements, id, e))
    else match PageAt(st.pages, st.currentPage)
      case None => st
      case Some(page) =>
        st.(pages := st.pages[st.currentPage := Some(page.(elements := ReplaceFirst(page.elements, id, e)))])
  }

  /** Updating an id that is nowhere on the edited list changes nothing at all. */
  lemma UpdateAbsentIsNoOp(st: DesignerState, id: string, e: Element)
    requires !st.isMultiPage ==> IndexOf(st.elements, id) == -1
    requires st.isMultiPage && PageAt(st.pages, st.currentPage).Some? ==>
      IndexOf(PageAt(st.pages, st.currentPage).value.elements, id) == -1
    ensures UpdateSpec(st, id, e) == st
  {
    if st.isMultiPage && PageAt(st.pages, st.currentPage).Some? {
      var page := PageAt(st.pages, st.currentPage).value;
      assert st.pages[st.currentPage := Some(page)] == st.pages;
    }
  }

  /** An element nested in a column is out of reach of `removeElement`. */
  lemma RemoveNeverLooksIntoColumns(st: DesignerState, id: string)
    requires !st.isMultiPage
    requires forall j :: 0 <= j < |st.elements| ==> st.elements[j].id != id
    ensures RemoveSpec(st, id) == st
  {
    RemoveIdAbsent(st.elements, id);
  }

  // ---- the updater queue ----

  /** A store call a gesture issues; React applies the queued calls in call order. */
  datatype StoreCall =
    | AddCall(index: int, element: Element)
    | RemoveCall(id: string)
    | UpdateCall(id: string, element: Element)

  function ApplyCall(st: DesignerState, c: StoreCall): DesignerState {
    match c
    case AddCall(index, e) => AddSpec(st, index, e)
    case RemoveCall(id) => RemoveSpec(st, id)
    case UpdateCall(id, e) => UpdateSpec(st, id, e)
  }

  /** The state after the calls, in order. */
  function ApplyCalls(st: DesignerState, calls: seq<StoreCall>): DesignerState
    decreases |calls|
  {
    if calls == [] then st
    else ApplyCall(ApplyCalls(st, calls[..|calls| - 1]), calls[|calls| - 1])
  }

  /**
    In multi-page mode any sequence of store calls leaves the root list, the mode, the
    selection, the theme, the current page and every other page as they were.
  */
  lemma {:induction false} MultiPageIsolation(st: DesignerState, calls: seq<StoreCall>)
    requires st.isMultiPage
    ensures KeepsOtherFields(st, ApplyCalls(st, calls))
    ensures OnlyCurrentPageChanged(st, ApplyCalls(st, calls))
    decreases |calls|
  {
    if calls != [] {
      MultiPageIsolation(st, calls[..|calls| - 1]);
    }
  }

  /** In single-page mode no store call touches `pages`. */
  lemma {:induction false} SinglePageKeepsPages(st: DesignerState, calls: seq<StoreCall>)
    requires !st.isMultiPage
    ensures ApplyCalls(st, calls).pages == st.pages
    ensures KeepsOtherFields(st, ApplyCalls(st, calls))
    decreases |calls|
  {
    if calls != [] {
      SinglePageKeepsPages(st, calls[..|calls| - 1]);
    }
  }

  // ---- the store object ----

  class DesignerStore {
    var elements: seq<Element>
    var selectedElement: Option<Element>
    var theme: string
    var isMultiPage: bool
    var pages: seq<Option<PageConfig>>
    var currentPage: int

    function State(): DesignerState
      reads this
    {
      DesignerState(elements, selectedElement, theme, isMultiPage, pages, currentPage)
    }

    /** `DesignerContextProvider`'s initial state. */
    constructor()
      ensures State() == InitialState
    {
      elements := [];
      selectedElement := None;
      theme := "default";
      isMultiPage := false;
      pages := [];
      currentPage := 0;
    }

    method AddElement(index: int, element: Element)
      modifies this
      ensures State() == AddSpec(old(State()), index, element)
    {
      if isMultiPage {
        // A negative index names a plain property of the array, which the next copy drops.
        if currentPage >= 0 {
          var newPages := pages;
          if PageAt(newPages, currentPage).None? {
            newPages := SetAt(newPages, currentPage, Some(EmptyPage));
          }
          var page := newPages[currentPage].value;
          var els := Splice(page.elements, index, element);
          newPages := newPages[currentPage := Some(page.(elements := els))];
          pages := newPages;
        }
      } else {
        elements := Splice(elements, index, element);
      }
    }

    method RemoveElement(id: string)
      modifies this
      ensures State() == RemoveSpec(old(State()), id)
    {
      if isMultiPage {
        var newPages := pages;
        if PageAt(newPages, currentPage).Some? {
          var page := newPages[currentPage].value;
          newPages := newPages[currentPage := Some(page.(elements := RemoveId(page.elements, id)))];
        }
        pages := newPages;
      } else {
        elements := RemoveId(elements, id);
      }
    }

    method UpdateElement(id: string, element: Element)
      modifies this
      ensures State() == UpdateSpec(old(State()), id, element)
    {
      if isMultiPage {
        var newPages := pages;
        if PageAt(newPages, currentPage).Some? {
          var page := newPages[currentPage].value;
          var index := IndexOf(page.elements, id);
          if index != -1 {
            assert page.elements[index := element] == ReplaceFirst(page.elements, id, element);
            newPages := newPages[currentPage := Some(page.(elements := page.elements[index := element]))];
          } else {
            assert page.(elements := ReplaceFirst(page.elements, id, element)) == page;
            assert newPages[currentPage := Some(page)] == newPages;
          }
        }
        pages := newPages;
      } else {
        elements := ReplaceFirst(elements, id, element);
      }
    }

    /** React running the queued updaters of one handler, in call order. */
    method Flush(calls: seq<StoreCall>)
      modifies this
      ensures State() == ApplyCalls(old(State()), calls)
    {
      var i := 0;
      while i < |calls|
        invariant 0 <= i <= |calls|
        invariant State() == ApplyCalls(old(State()), calls[..i])
      {
        assert calls[..i + 1][..i] == calls[..i];
        match calls[i] {
          case AddCall(index, e) => AddElement(index, e);
          case RemoveCall(id) => RemoveElement(id);
          case UpdateCall(id, e) => UpdateElement(id, e);
        }
        i := i + 1;
      }
      assert calls[..i] == calls;
    }

    method SetElements(newElements: seq<Element>)
      modifies this
      ensures State() == old(State()).(elements := newElements)
    {
      elements := newElements;
    }

    method SetSelectedElement(e: Option<Element>)
      modifies this
      ensures State() == old(State()).(selectedElement := e)
    {
      selectedElement := e;
    }

    method SetTheme(t: string)
      modifies this
      ensures State() == old(State()).(theme := t)
    {
      theme := t;
    }

    method SetIsMultiPage(value: bool)
      modifies this
      ensures State() == old(State()).(isMultiPage := value)
    {
      isMultiPage := value;
    }

    method SetPages(newPages: seq<Option<PageConfig>>)
      modifies this
      ensures State() == old(State()).(pages := newPages)
    {
      pages := newPages;
    }

    method SetCurrentPage(page: int)
      modifies this
      ensures State() == old(State()).(currentPage := page)
    {
      currentPage := page;
    }
  }
}
