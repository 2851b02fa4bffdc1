/** The explore page (hooks/use-explore.tsx): the fetched published events
    are narrowed to one category, ordered by creation time and cut into
    pages of five. */
module Explore {
  import opened Common
  import OrderTable

  /** Events per page. */
  const PageSize: nat := 5

  /** The fields of an event this page looks at. */
  datatype Event = Event(id: string, categoryId: Option<string>, createdAt: int)

  function InCategory(category: string): Event -> bool {
    (e: Event) => e.categoryId == Some(category)
  }

  /** `if (selectedCategory) filtered = filtered.filter(e => e.category_id === selectedCategory)`. */
  function FilterByCategory(events: seq<Event>, selectedCategory: string): seq<Event> {
    if selectedCategory != "" then Filter(events, InCategory(selectedCategory)) else events
  }

  function CreatedAt(e: Event): int { e.createdAt }

  function NegCreatedAt(e: Event): int { -e.createdAt }

  /** "newest" sorts by creation time descending, "oldest" ascending, any
      other choice leaves the order as fetched. */
  function SortEvents(events: seq<Event>, sortBy: string): seq<Event> {
    if sortBy == "newest" then SortByRank(events, NegCreatedAt)
    else if sortBy == "oldest" then SortByRank(events, CreatedAt)
    else events
  }

  /** The list the page count is taken from (`allFilteredEvents`). */
  function Arrange(fetched: seq<Event>, selectedCategory: string, sortBy: string): seq<Event> {
    SortEvents(FilterByCategory(fetched, selectedCategory), sortBy)
  }

  /** Filtering by a category keeps exactly the events of that category, in
      their fetched order; no category keeps everything. */
  lemma {:induction false} FilterByCategoryCorrect(events: seq<Event>, selectedCategory: string)
    ensures var kept := FilterByCategory(events, selectedCategory);
            && IsSubsequence(kept, events)
            && (selectedCategory != "" ==> forall e :: e in kept ==> e.categoryId == Some(selectedCategory))
            && (selectedCategory != "" ==> forall e :: e in events && e.categoryId == Some(selectedCategory) ==> e in kept)
            && (selectedCategory == "" ==> kept == events)
  {
    if selectedCategory != "" {
      FilterIsSubsequence(events, InCategory(selectedCategory));
    } else {
      SubsequenceOfItself(events);
    }
  }

  lemma {:induction false} SubsequenceOfItself<T>(s: seq<T>)
    ensures IsSubsequence(s, s)
  {
    if s != [] {
      SubsequenceOfItself(s[1..]);
    }
  }

  /** Sorting rearranges the events without losing or adding any, in the chosen order. */
  lemma {:induction false} SortEventsCorrect(events: seq<Event>, sortBy: string)
    ensures multiset(SortEvents(events, sortBy)) == multiset(events)
    ensures sortBy == "newest" ==> forall i, j :: 0 <= i < j < |events| ==>
              SortEvents(events, sortBy)[i].createdAt >= SortEvents(events, sortBy)[j].createdAt
    ensures sortBy == "oldest" ==> forall i, j :: 0 <= i < j < |events| ==>
              SortEvents(events, sortBy)[i].createdAt <= SortEvents(events, sortBy)[j].createdAt
    ensures sortBy != "newest" && sortBy != "oldest" ==> SortEvents(events, sortBy) == events
  {
    SortByRankCorrect(events, NegCreatedAt);
    SortByRankCorrect(events, CreatedAt);
  }

  /** `filtered.slice((page - 1) * 5, (page - 1) * 5 + 5)`. */
  function PageOf(filtered: seq<Event>, page: int): (r: seq<Event>)
    ensures |r| <= |filtered|
  {
    JsSlice(filtered, (page - 1) * PageSize, (page - 1) * PageSize + PageSize)
  }

  /** From page 1 on, the page shows at most five events: those at positions
      (page - 1) * 5 up to, but not including, page * 5. */
  lemma PageOfIsWindow(filtered: seq<Event>, page: int)
    requires page >= 1
    ensures PageOf(filtered, page) == Window(filtered, (page - 1) * PageSize, PageSize)
    ensures |PageOf(filtered, page)| <= PageSize
  {
  }

  /** The page count: 0 for no events, otherwise `max(ceil(n / 5), 1)`. */
  function TotalPages(n: nat): nat {
    if n == 0 then 0 else Max((n + PageSize - 1) / PageSize, 1)
  }

  /** The count is 0 exactly for an empty list, and otherwise the usual
      `ceil(n / 5)`: enough pages for every event and no empty last page. */
  lemma TotalPagesCorrect(n: nat)
    ensures TotalPages(n) == 0 <==> n == 0
    ensures TotalPages(n) == OrderTable.TotalPages(n, PageSize)
    ensures TotalPages(n) * PageSize >= n
    ensures n > 0 ==> (TotalPages(n) - 1) * PageSize < n
  {
  }

  /** The page state of the explore page. */
  class ExploreView {
    var events: seq<Event>
    var allFilteredEvents: seq<Event>
    var isLoading: bool

    constructor ()
      ensures events == [] && allFilteredEvents == [] && isLoading
    {
      events, allFilteredEvents, isLoading := [], [], true;
    }

    /** The fetch effect: on a successful fetch, stores the arranged list and
        the current page of it; either way, loading ends. */
    method FetchEvents(fetched: Option<seq<Event>>, selectedCategory: string, sortBy: string, page: int)
      modifies this
      ensures !isLoading
      ensures fetched.Some? ==> allFilteredEvents == Arrange(fetched.value, selectedCategory, sortBy)
      ensures fetched.Some? ==> events == PageOf(allFilteredEvents, page)
      ensures fetched.None? ==> allFilteredEvents == old(allFilteredEvents) && events == old(events)
    {
      isLoading := true;
      if fetched.Some? {
        var filtered := fetched.value;
        if selectedCategory != "" {
          filtered := Filter(filtered, InCategory(selectedCategory));
        }
        if sortBy == "newest" {
          filtered := SortByRank(filtered, NegCreatedAt);
        } else if sortBy == "oldest" {
          filtered := SortByRank(filtered, CreatedAt);
        }
        allFilteredEvents := filtered;
        var offset := (page - 1) * PageSize;
        events := JsSlice(filtered, offset, offset + PageSize);
      }
      isLoading := false;
    }
  }

  /** Every event of a category view was fetched and belongs to the category. */
  lemma {:induction false} ArrangeKeepsCategory(fetched: seq<Event>, selectedCategory: string, sortBy: string)
    requires selectedCategory != ""
    ensures forall e :: e in Arrange(fetched, selectedCategory, sortBy) ==>
              e in fetched && e.categoryId == Some(selectedCategory)
  {
    var kept := FilterByCategory(fetched, selectedCategory);
    FilterByCategoryCorrect(fetched, selectedCategory);
    SortEventsCorrect(kept, sortBy);
    forall e | e in Arrange(fetched, selectedCategory, sortBy)
      ensures e in kept
    {
      assert e in multiset(Arrange(fetched, selectedCategory, sortBy));
    }
  }

  /** Every event on a page of a category view belongs to the category and
      came from the fetch. */
  lemma {:induction false} PageEventsMatchCategory(fetched: seq<Event>, selectedCategory: string, sortBy: string, page: int)
    requires selectedCategory != "" && page >= 1
    ensures forall e :: e in PageOf(Arrange(fetched, selectedCategory, sortBy), page) ==>
              e in fetched && e.categoryId == Some(selectedCategory)
  {
    var arranged := Arrange(fetched, selectedCategory, sortBy);
    ArrangeKeepsCategory(fetched, selectedCategory, sortBy);
    PageOfIsWindow(arranged, page);
    forall e | e in PageOf(arranged, page)
      ensures e in arranged
    {
      var w := PageOf(arranged, page);
      var i :| 0 <= i < |w| && w[i] == e;
      assert e == arranged[(page - 1) * PageSize + i];
    }
  }
}
