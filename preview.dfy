/**
  The preview dialog (src/components/PreviewDialogBtn.tsx): which list is previewed and the
  preview's own page index, stepped by guarded next, previous and click handlers that read
  the mode and the page count from the designer store.
*/
module PreviewDialog {
  import opened Wrappers
  import opened ElementModel
  import opened DesignerContext

  /**
    The indices the preview can show: a page of the list, or 0 when there is none (the
    index starts at 0 even before any page exists).
  */
  predicate InRange(index: int, pageCount: nat) {
    index == 0 || 0 <= index < pageCount
  }

  /** `handleNextPage`: one page on, only in multi-page mode and before the last page. */
  function NextIndex(isMultiPage: bool, pageCount: nat, index: int): (r: int)
    ensures InRange(index, pageCount) ==> InRange(r, pageCount)
    ensures r != index <==> isMultiPage && index < pageCount - 1
    ensures r == index || r == index + 1
  {
    if isMultiPage && index < pageCount - 1 then index + 1 else index
  }

  /** `handlePrevPage`: one page back, only in multi-page mode and after the first page. */
  function PrevIndex(isMultiPage: bool, index: int): (r: int)
    ensures r >= 0 || r == index
    ensures r != index <==> isMultiPage && index > 0
    ensures r == index || r == index - 1
  {
    if isMultiPage && index > 0 then index - 1 else index
  }

  /** `handlePageClick(i)`: only an existing page of a multi-page form is selected. */
  function ClickIndex(isMultiPage: bool, pageCount: nat, index: int, clicked: int): (r: int)
    ensures InRange(index, pageCount) ==> InRange(r, pageCount)
    ensures r == clicked <== isMultiPage && 0 <= clicked < pageCount
    ensures r == index || (isMultiPage && 0 <= r < pageCount)
  {
    if isMultiPage && 0 <= clicked < pageCount then clicked else index
  }

  datatype Gesture = Next | Prev | Click(page: int)

  function Step(isMultiPage: bool, pageCount: nat, index: int, g: Gesture): int {
    match g
    case Next => NextIndex(isMultiPage, pageCount, index)
    case Prev => PrevIndex(isMultiPage, index)
    case Click(p) => ClickIndex(isMultiPage, pageCount, index, p)
  }

  /** The index after a run of gestures on a pages list that does not change. */
  function Run(isMultiPage: bool, pageCount: nat, index: int, gs: seq<Gesture>): int
    decreases |gs|
  {
    if gs == [] then index else Run(isMultiPage, pageCount, Step(isMultiPage, pageCount, index, gs[0]), gs[1..])
  }

  /**
    Starting from any index in range, and so from the initial 0, no run of gestures takes
    the index below 0 or to the page count or beyond (except the 0 of an empty list).
  */
  lemma {:induction false} RunStaysInRange(isMultiPage: bool, pageCount: nat, index: int, gs: seq<Gesture>)
    requires InRange(index, pageCount)
    ensures InRange(Run(isMultiPage, pageCount, index, gs), pageCount)
    decreases |gs|
  {
    if gs != [] {
      RunStaysInRange(isMultiPage, pageCount, Step(isMultiPage, pageCount, index, gs[0]), gs[1..]);
    }
  }

  /** In single-page mode every handler is a no-op. */
  lemma {:induction false} SinglePageRunIsNoOp(pageCount: nat, index: int, gs: seq<Gesture>)
    ensures Run(false, pageCount, index, gs) == index
    decreases |gs|
  {
    if gs != [] {
      SinglePageRunIsNoOp(pageCount, index, gs[1..]);
    }
  }

  /**
    The previewed list: the root list in single-page mode; in multi-page mode the elements
    of the page at the preview index, or nothing when there is no such page.
  */
  function PreviewedElements(st: DesignerState, index: int): (r: seq<Element>)
    ensures !st.isMultiPage ==> r == st.elements
    ensures st.isMultiPage && PageAt(st.pages, index).Some? ==> r == PageAt(st.pages, index).value.elements
    ensures st.isMultiPage && PageAt(st.pages, index).None? ==> r == []
  {
    if !st.isMultiPage then st.elements
    else if PageAt(st.pages, index).Some? then PageAt(st.pages, index).value.elements
    else []
  }

  /** `pages[0]?.config.showPageNumbers || true`: page numbers show whatever page 0 says. */
  function PreviewShowsPageNumbers(pages: seq<Option<PageConfig>>): (b: bool)
    ensures b
  {
    (PageAt(pages, 0).Some? && PageAt(pages, 0).value.showPageNumbers) || true
  }

  /** The dialog's own state: the page it shows. */
  class PreviewNavigator {
    var currentPreviewPage: int

    constructor()
      ensures currentPreviewPage == 0
    {
      currentPreviewPage := 0;
    }

    method HandleNextPage(store: DesignerStore)
      modifies this
      ensures currentPreviewPage == NextIndex(store.isMultiPage, |store.pages|, old(currentPreviewPage))
    {
      if store.isMultiPage && currentPreviewPage < |store.pages| - 1 {
        currentPreviewPage := currentPreviewPage + 1;
      }
    }

    method HandlePrevPage(store: DesignerStore)
      modifies this
      ensures currentPreviewPage == PrevIndex(store.isMultiPage, old(currentPreviewPage))
    {
      if store.isMultiPage && currentPreviewPage > 0 {
        currentPreviewPage := currentPreviewPage - 1;
      }
    }

    method HandlePageClick(store: DesignerStore, pageIndex: int)
      modifies this
      ensures currentPreviewPage == ClickIndex(store.isMultiPage, |store.pages|, old(currentPreviewPage), pageIndex)
    {
      if store.isMultiPage && pageIndex >= 0 && pageIndex < |store.pages| {
        currentPreviewPage := pageIndex;
      }
    }

    /** What the dialog renders from the store. */
    function Previewed(store: DesignerStore): (r: seq<Element>)
      reads this, store
      ensures r == PreviewedElements(store.State(), currentPreviewPage)
    {
      if !store.isMultiPage then store.elements
      else if PageAt(store.pages, currentPreviewPage).Some? then PageAt(store.pages, currentPreviewPage).value.elements
      else []
    }
  }
}
