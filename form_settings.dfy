/**
  The form settings panel (src/components/FormSettings.tsx): switching multi-page mode,
  adding a page, and setting the navigation style or the page numbers on every page.
  A missing page (`None`) is a hole of the pages array, which `map` skips.
*/
module FormSettings {
  import opened Wrappers
  import opened ElementModel
  import opened DesignerContext

  /** The single page multi-page mode starts with. */
  const FirstPages: seq<Option<PageConfig>> := [Some(EmptyPage)]

  /**
    The store after the multi-page switch is set to `checked`: switching on replaces the
    pages by one empty page and selects it; switching off only clears the flag.
  */
  function MultiPageChange(st: DesignerState, checked: bool): (r: DesignerState)
    ensures r.isMultiPage == checked
  {
    if checked then st.(pages := FirstPages, currentPage := 0, isMultiPage := true)
    else st.(isMultiPage := false)
  }

  /**
    Switching multi-page mode on discards whatever pages there were and does not copy the
    root list: the edited page is empty, whatever the root held, and the result does not
    depend on the earlier pages or page index. The root list is never touched, and
    switching off keeps the pages.
  */
  lemma MultiPageChangeEffect(st: DesignerState, other: DesignerState, checked: bool)
    requires other == st.(pages := other.pages, currentPage := other.currentPage)
    ensures MultiPageChange(st, checked).elements == st.elements
    ensures checked ==> PageAt(MultiPageChange(st, true).pages, MultiPageChange(st, true).currentPage) == Some(EmptyPage)
    ensures checked ==> MultiPageChange(st, true) == MultiPageChange(other, true)
    ensures !checked ==> MultiPageChange(st, false).pages == st.pages && MultiPageChange(st, false).currentPage == st.currentPage
  {
  }

  /**
    Turning the mode off and on again loses the pages' content: the page being edited is
    empty again even when it held elements before.
  */
  lemma ReenableLosesPages(st: DesignerState)
    requires st.isMultiPage && PageAt(st.pages, st.currentPage).Some? && PageAt(st.pages, st.currentPage).value.elements != []
    ensures var r := MultiPageChange(MultiPageChange(st, false), true);
      PageAt(r.pages, r.currentPage) != PageAt(st.pages, st.currentPage)
  {
  }

  /**
    `[...pages, newPage]`: the new page is empty, copies page 0's navigation style, and
    shows page numbers whatever page 0 says, because `x || true` is always true.
  */
  function AddPage(pages: seq<Option<PageConfig>>): (r: seq<Option<PageConfig>>)
    ensures |r| == |pages| + 1 && r[..|pages|] == pages
    ensures r[|pages|].Some? && r[|pages|].value.elements == [] && r[|pages|].value.showPageNumbers
    ensures r[|pages|].value.navigationType == FirstNavigationType(pages)
  {
    pages + [Some(PageConfig([], FirstNavigationType(pages), true))]
  }

  /**
    Adding a page never changes the first page, so pages added one after another all
    share the first page's navigation style, or 'tabs' when they start the list.
  */
  lemma {:induction false} AddPagesShareStyle(pages: seq<Option<PageConfig>>, n: nat)
    ensures var r := AddPages(pages, n);
      && |r| == |pages| + n
      && r[..|pages|] == pages
      && forall i :: |pages| <= i < |r| ==> r[i] == Some(PageConfig([], FirstNavigationType(pages), true))
  {
    if n > 0 {
      AddPagesShareStyle(pages, n - 1);
      var prev := AddPages(pages, n - 1);
      if |pages| > 0 {
        assert PageAt(prev, 0) == PageAt(pages, 0) by {
          assert prev[0] == prev[..|pages|][0];
        }
      } else if n - 1 > 0 {
        assert PageAt(prev, 0) == Some(PageConfig([], Tabs, true));
      }
      assert FirstNavigationType(prev) == FirstNavigationType(pages);
      assert AddPages(pages, n)[..|prev|] == prev;
    }
  }

  /** `n` presses of the add-page button. */
  function AddPages(pages: seq<Option<PageConfig>>, n: nat): seq<Option<PageConfig>> {
    if n == 0 then pages else AddPage(AddPages(pages, n - 1))
  }

  /** `pages.map(page => ({...page, config: {...page.config, navigationType: type}}))`. */
  function SetNavigationType(pages: seq<Option<PageConfig>>, t: NavigationType): (r: seq<Option<PageConfig>>)
    ensures |r| == |pages|
    ensures forall i :: 0 <= i < |r| ==> (r[i].Some? <==> pages[i].Some?)
  {
    seq(|pages|, i requires 0 <= i < |pages| => if pages[i].Some? then Some(pages[i].value.(navigationType := t)) else None)
  }

  /** `pages.map(page => ({...page, config: {...page.config, showPageNumbers: checked}}))`. */
  function SetShowPageNumbers(pages: seq<Option<PageConfig>>, checked: bool): (r: seq<Option<PageConfig>>)
    ensures |r| == |pages|
    ensures forall i :: 0 <= i < |r| ==> (r[i].Some? <==> pages[i].Some?)
  {
    seq(|pages|, i requires 0 <= i < |pages| => if pages[i].Some? then Some(pages[i].value.(showPageNumbers := checked)) else None)
  }

  /**
    After a navigation change every page uses the chosen style, and each page keeps its
    elements and its page-number setting; the page-number toggle is the mirror image.
  */
  lemma SettingsTouchOneField(pages: seq<Option<PageConfig>>, t: NavigationType, checked: bool)
    ensures var r := SetNavigationType(pages, t);
      forall i :: 0 <= i < |r| && r[i].Some? ==>
        r[i].value.navigationType == t
        && r[i].value.elements == pages[i].value.elements
        && r[i].value.showPageNumbers == pages[i].value.showPageNumbers
    ensures var r := SetShowPageNumbers(pages, checked);
      forall i :: 0 <= i < |r| && r[i].Some? ==>
        r[i].value.showPageNumbers == checked
        && r[i].value.elements == pages[i].value.elements
        && r[i].value.navigationType == pages[i].value.navigationType
  {
  }

  /**
    The two settings are independent: applying them in either order gives the same pages,
    and applying either one twice is the same as once.
  */
  lemma SettingsCommute(pages: seq<Option<PageConfig>>, t: NavigationType, checked: bool)
    ensures SetNavigationType(SetShowPageNumbers(pages, checked), t) == SetShowPageNumbers(SetNavigationType(pages, t), checked)
    ensures SetNavigationType(SetNavigationType(pages, t), t) == SetNavigationType(pages, t)
    ensures SetShowPageNumbers(SetShowPageNumbers(pages, checked), checked) == SetShowPageNumbers(pages, checked)
  {
  }

  // ---- the handlers, writing the store in the order the source does ----

  method HandleMultiPageChange(store: DesignerStore, checked: bool)
    modifies store
    ensures store.State() == MultiPageChange(old(store.State()), checked)
  {
    if checked {
      store.SetPages(FirstPages);
      store.SetCurrentPage(0);
    }
    store.SetIsMultiPage(checked);
  }

  method HandleAddPage(store: DesignerStore)
    modifies store
    ensures store.State() == old(store.State()).(pages := AddPage(old(store.pages)))
  {
    store.SetPages(AddPage(store.pages));
  }

  method HandleNavigationTypeChange(store: DesignerStore, t: NavigationType)
    modifies store
    ensures store.State() == old(store.State()).(pages := SetNavigationType(old(store.pages), t))
  {
    store.SetPages(SetNavigationType(store.pages, t));
  }

  method HandleShowPageNumbersChange(store: DesignerStore, checked: bool)
    modifies store
    ensures store.State() == old(store.State()).(pages := SetShowPageNumbers(old(store.pages), checked))
  {
    store.SetPages(SetShowPageNumbers(store.pages, checked));
  }
}
