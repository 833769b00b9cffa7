/**
 * The selection state of the `PageSelector` component
 * (src/components/PageSelector.tsx): a set of selected page ids, toggled one
 * id at a time, with the selected pages handed to the parent in the order the
 * page list gives them. Rendering is left out; the `onPagesSelected` call is
 * the toggle's result.
 */
module PageSelector {
  import PagesRoute

  type FacebookPage = PagesRoute.FacebookPage

  /** The selection after toggling `pageId`: it flips that id and no other. */
  function ToggleSet(selected: set<string>, pageId: string): (r: set<string>)
    ensures pageId in r <==> pageId !in selected
    ensures forall id :: id != pageId ==> (id in r <==> id in selected)
  {
    if pageId in selected then selected - {pageId} else selected + {pageId}
  }

  /** Toggling the same id twice restores the selection. */
  lemma ToggleTwiceRestores(selected: set<string>, pageId: string)
    ensures ToggleSet(ToggleSet(selected, pageId), pageId) == selected
  {
  }

  /** Each toggle changes the displayed count by exactly one. */
  lemma ToggleChangesCountByOne(selected: set<string>, pageId: string)
    ensures |ToggleSet(selected, pageId)| == if pageId in selected then |selected| - 1 else |selected| + 1
  {
  }

  /** `pages.filter(page => selected.has(page.id))`. */
  function SelectedPages(pages: seq<FacebookPage>, selected: set<string>): (r: seq<FacebookPage>)
    ensures |r| <= |pages|
    ensures forall p :: p in r <==> p in pages && p.id in selected
  {
    if |pages| == 0 then []
    else (if pages[0].id in selected then [pages[0]] else []) + SelectedPages(pages[1..], selected)
  }

  /** The filter keeps the page list's order: it distributes over concatenation. */
  lemma {:induction false} SelectedPagesKeepOrder(a: seq<FacebookPage>, b: seq<FacebookPage>, selected: set<string>)
    ensures SelectedPages(a + b, selected) == SelectedPages(a, selected) + SelectedPages(b, selected)
    decreases |a|
  {
    if |a| > 0 {
      assert (a + b)[0] == a[0];
      assert (a + b)[1..] == a[1..] + b;
      SelectedPagesKeepOrder(a[1..], b, selected);
    } else {
      assert a + b == b;
    }
  }

  /** With every page selected, the parent receives the whole list unchanged. */
  lemma {:induction false} AllSelectedIsEverything(pages: seq<FacebookPage>, selected: set<string>)
    requires forall i :: 0 <= i < |pages| ==> pages[i].id in selected
    ensures SelectedPages(pages, selected) == pages
    decreases |pages|
  {
    if |pages| > 0 {
      AllSelectedIsEverything(pages[1..], selected);
    }
  }

  class PageSelector {
    var selectedPages: set<string>
    const pages: seq<FacebookPage>

    /** The selection starts empty. */
    constructor (pages: seq<FacebookPage>)
      ensures selectedPages == {} && this.pages == pages
    {
      selectedPages := {};
      this.pages := pages;
    }

    /** `handlePageToggle`: the new selection, and the pages passed to `onPagesSelected`. */
    method HandlePageToggle(pageId: string) returns (chosen: seq<FacebookPage>)
      modifies this
      ensures selectedPages == ToggleSet(old(selectedPages), pageId)
      ensures chosen == SelectedPages(pages, selectedPages)
    {
      var newSelected := selectedPages;
      if pageId in newSelected {
        newSelected := newSelected - {pageId};
      } else {
        newSelected := newSelected + {pageId};
      }
      selectedPages := newSelected;
      chosen := SelectedPages(pages, newSelected);
    }

    /** The `{selectedPages.size}` the header displays. */
    function SelectedCount(): (n: nat)
      reads this
      ensures n == 0 <==> selectedPages == {}
    {
      |selectedPages|
    }
  }
}
