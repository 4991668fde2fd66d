/**
  The blog listing page (src/pages/BlogPage.tsx): filtering of the fetched posts
  by category and by a case-insensitive search, pagination in pages of nine, the
  de-duplicated category list, the card entrance delay, and the page's state
  (page number, active category, search text, loading and error flags).
 */
module BlogListing {
  import opened Wrappers
  import opened Text
  import opened SeqFilter

  datatype Category = Category(name: string, slug: string)

  /** The fields of a post that the listing logic reads; `excerpt` and `category` may be null. */
  datatype BlogPost = BlogPost(
    id: int,
    title: string,
    slug: string,
    excerpt: Option<string>,
    category: Option<Category>)

  const PageSize: nat := 9

  /** `p.excerpt || ''`: a missing or empty excerpt reads as the empty string. */
  function ExcerptText(p: BlogPost): string {
    p.excerpt.GetOr("")
  }

  /** `p.category?.name === cat`: a post without a category matches no name. */
  predicate InCategory(p: BlogPost, cat: string) {
    p.category.Some? && p.category.value.name == cat
  }

  /** The search test, for a query `q` that is already lower-cased. */
  predicate MatchesQuery(p: BlogPost, q: string) {
    Includes(Lower(p.title), q) || Includes(Lower(ExcerptText(p)), q)
  }

  /** `filteredPosts`: an empty category or an empty search string applies no filter. */
  function FilteredPosts(all: seq<BlogPost>, activeCategory: string, search: string): (r: seq<BlogPost>)
    ensures |r| <= |all|
    ensures forall p :: p in r <==> p in all && Selected(p, activeCategory, search)
  {
    var byCategory := if activeCategory != "" then Keep(all, p => InCategory(p, activeCategory)) else all;
    if search != "" then Keep(byCategory, p => MatchesQuery(p, Lower(search))) else byCategory
  }

  /** Whether one post passes both active criteria. */
  predicate Selected(p: BlogPost, activeCategory: string, search: string) {
    && (activeCategory != "" ==> InCategory(p, activeCategory))
    && (search != "" ==> MatchesQuery(p, Lower(search)))
  }

  /** The two successive filters select exactly the posts that pass both criteria, in their order. */
  lemma FilteredIsSelection(all: seq<BlogPost>, activeCategory: string, search: string)
    ensures FilteredPosts(all, activeCategory, search) == Keep(all, p => Selected(p, activeCategory, search))
  {
    var cat := p => InCategory(p, activeCategory);
    var query := p => MatchesQuery(p, Lower(search));
    var both := p => Selected(p, activeCategory, search);
    if activeCategory != "" && search != "" {
      KeepFusion(all, cat, query, both);
    } else if activeCategory != "" {
      KeepFusion(all, cat, _ => true, both);
      KeepAll(Keep(all, cat), _ => true);
    } else if search != "" {
      KeepFusion(all, _ => true, query, both);
      KeepAll(all, _ => true);
    } else {
      KeepAll(all, both);
    }
  }

  /**
    The filtered list is an order-preserving subsequence of all posts; a post is in it
    exactly when it is among the posts and passes both criteria; and the kept and the
    dropped posts together are all the posts.
   */
  lemma FilteredPostsSpec(all: seq<BlogPost>, activeCategory: string, search: string)
    ensures var r := FilteredPosts(all, activeCategory, search);
      && IsSubsequence(r, all)
      && (forall p :: p in r <==> p in all && Selected(p, activeCategory, search))
      && multiset(r) + multiset(Keep(all, p => !Selected(p, activeCategory, search))) == multiset(all)
  {
    var both := p => Selected(p, activeCategory, search);
    FilteredIsSelection(all, activeCategory, search);
    KeepIsSubsequence(all, both);
    KeepPartition(all, both, p => !Selected(p, activeCategory, search));
  }

  /** With no active category and an empty search every post is listed. */
  lemma NoCriteriaListsAll(all: seq<BlogPost>)
    ensures FilteredPosts(all, "", "") == all
  {
  }

  /** The search gives the same posts whatever the case of the query. */
  lemma {:induction false} SearchIgnoresCase(all: seq<BlogPost>, activeCategory: string, search: string)
    ensures FilteredPosts(all, activeCategory, Lower(search)) == FilteredPosts(all, activeCategory, search)
  {
    LowerIdempotent(search);
    assert |Lower(search)| == |search|;
  }

  /** `Math.max(1, Math.ceil(n / PAGE_SIZE))`: the fewest pages of nine that hold `n` posts, and at least one. */
  function TotalPages(n: nat): (pages: int)
    ensures pages >= 1
    ensures n == 0 ==> pages == 1
    ensures n > 0 ==> (pages - 1) * PageSize < n <= pages * PageSize
  {
    if n == 0 then 1 else (n + PageSize - 1) / PageSize
  }

  /** The posts on page `page`: `filteredPosts.slice((page - 1) * PAGE_SIZE, page * PAGE_SIZE)`. */
  function PageOf(filtered: seq<BlogPost>, page: int): (r: seq<BlogPost>)
    ensures |r| <= PageSize
  {
    JsSlice(filtered, (page - 1) * PageSize, page * PageSize)
  }

  /** Pages `first` to `last`, one after the other. */
  function PagesFrom(filtered: seq<BlogPost>, first: int, last: int): seq<BlogPost>
    decreases last - first + 1
  {
    if first > last then [] else PageOf(filtered, first) + PagesFrom(filtered, first + 1, last)
  }

  lemma {:induction false} PagesFromSuffix(filtered: seq<BlogPost>, first: int)
    requires 1 <= first <= TotalPages(|filtered|) + 1
    ensures PagesFrom(filtered, first, TotalPages(|filtered|)) == filtered[Min((first - 1) * PageSize, |filtered|)..]
    decreases TotalPages(|filtered|) + 1 - first
  {
    var last := TotalPages(|filtered|);
    if first > last {
      assert (first - 1) * PageSize >= |filtered|;
    } else {
      PagesFromSuffix(filtered, first + 1);
      var a := Min((first - 1) * PageSize, |filtered|);
      var b := Min(first * PageSize, |filtered|);
      assert PageOf(filtered, first) == filtered[a..b];
      assert filtered[a..b] + filtered[b..] == filtered[a..];
    }
  }

  /** Reading pages 1 to `totalPages` in order gives back the filtered list exactly. */
  lemma PagesCoverFiltered(filtered: seq<BlogPost>)
    ensures PagesFrom(filtered, 1, TotalPages(|filtered|)) == filtered
  {
    PagesFromSuffix(filtered, 1);
  }

  /** When there is something to show, every page from 1 to `totalPages` shows something. */
  lemma PagesInRangeAreNonEmpty(filtered: seq<BlogPost>, page: int)
    requires 1 <= page <= TotalPages(|filtered|)
    requires filtered != []
    ensures PageOf(filtered, page) != []
  {
  }

  /** The category name of each post that has a non-empty one, in post order (`.map(...).filter(Boolean)`). */
  function CategoryNames(posts: seq<BlogPost>): (names: seq<string>)
    ensures |names| <= |posts|
    ensures forall c :: c in names ==> c != ""
  {
    if posts == [] then []
    else
      var p := posts[0];
      (if p.category.Some? && p.category.value.name != "" then [p.category.value.name] else [])
        + CategoryNames(posts[1..])
  }

  lemma {:induction false} CategoryNamesSpec(posts: seq<BlogPost>)
    ensures forall c :: c in CategoryNames(posts) <==> c != "" && exists p :: p in posts && InCategory(p, c)
  {
    if posts != [] {
      var p := posts[0];
      CategoryNamesSpec(posts[1..]);
      assert forall q :: q in posts <==> q == p || q in posts[1..];
      if p.category.Some? && p.category.value.name != "" {
        assert InCategory(p, p.category.value.name);
      }
    }
  }

  /** `Array.from(new Set(names))`: the category filter buttons. */
  function CategoryList(posts: seq<BlogPost>): (cats: seq<string>)
    ensures NoDuplicates(cats)
    ensures forall c :: c in cats <==> c != "" && exists p :: p in posts && InCategory(p, c)
  {
    CategoryNamesSpec(posts);
    Distinct(CategoryNames(posts))
  }

  /**
    The category list holds each non-empty category name of the posts once, nothing else,
    in order of first occurrence among the posts.
   */
  lemma CategoryListSpec(posts: seq<BlogPost>)
    ensures var cats := CategoryList(posts);
      && NoDuplicates(cats)
      && (forall c :: c in cats <==> c != "" && exists p :: p in posts && InCategory(p, c))
      && cats == FirstOccurrences(CategoryNames(posts))
  {
    CategoryNamesSpec(posts);
  }

  /**
    `(index % 3) * 0.1`: the entrance delay of the card at `index` on the page. It is
    zero for every third card, which is the first column only in the three-column grid.
   */
  function CardDelay(index: nat): (delay: real)
    ensures 0.0 <= delay <= 0.2
    ensures delay == 0.0 <==> index % 3 == 0
  {
    (index % 3) as real * 0.1
  }

  /** Outcome of the one fetch the page starts on mount. */
  datatype PostsResponse =
    | Received(data: Option<seq<BlogPost>>)   // `res.ok`; `data.data` may be absent
    | RequestFailed                           // `!res.ok`, or the request threw

  const LoadError: string := "Failed to load posts. Please try again."

  /** Where `goToPage` scrolls the window to, so the grid comes into view. */
  const PagerScrollTop: int := 400

  class BlogListingPage {
    var allPosts: seq<BlogPost>
    var loading: bool
    var error: Option<string>
    var page: int
    var categories: seq<string>
    var activeCategory: string
    var search: string
    var searchInput: string
    /** The vertical scroll position this page last asked the window for. */
    var scrollTop: int

    function Filtered(): seq<BlogPost>
      reads this
    {
      FilteredPosts(allPosts, activeCategory, search)
    }

    function PageCount(): int
      reads this
    {
      TotalPages(|Filtered()|)
    }

    /** `posts`: the cards on the current page. */
    function Visible(): seq<BlogPost>
      reads this
    {
      PageOf(Filtered(), page)
    }

    ghost predicate Valid()
      reads this
    {
      && 1 <= page <= PageCount()
      && categories == CategoryList(allPosts)
      && (loading ==> allPosts == [])
    }

    /** Mounting: initial state, scroll to top, and the fetch started (`loading`). */
    constructor ()
      ensures Valid()
      ensures allPosts == [] && categories == [] && loading && error == None
      ensures page == 1 && activeCategory == "" && search == "" && searchInput == ""
      ensures scrollTop == 0
    {
      allPosts := [];
      loading := true;
      error := None;
      page := 1;
      categories := [];
      activeCategory := "";
      search := "";
      searchInput := "";
      scrollTop := 0;
    }

    /** The fetch completes: the list (or `[]` when `data.data` is absent) and its categories, or the error message. */
    method ReceivePosts(response: PostsResponse)
      requires Valid() && loading
      modifies this
      ensures Valid() && !loading
      ensures response.Received? ==>
        allPosts == response.data.GetOr([]) && categories == CategoryList(allPosts) && error == old(error)
      ensures response.RequestFailed? ==>
        allPosts == old(allPosts) && categories == old(categories) && error == Some(LoadError)
      ensures page == old(page) == 1
      ensures activeCategory == old(activeCategory) && search == old(search)
      ensures searchInput == old(searchInput) && scrollTop == old(scrollTop)
    {
      match response {
        case Received(data) =>
          allPosts := data.GetOr([]);
          categories := CategoryList(allPosts);
        case RequestFailed =>
          error := Some(LoadError);
      }
      loading := false;
    }

    /** Typing in the search box: only `searchInput` changes, so the listing does not. */
    method TypeSearch(text: string)
      requires Valid()
      modifies this`searchInput
      ensures Valid() && searchInput == text
      ensures Filtered() == old(Filtered()) && Visible() == old(Visible())
    {
      searchInput := text;
    }

    /** `handleSearch`: submitting copies the typed text into the filter and returns to page 1. */
    method SubmitSearch()
      requires Valid()
      modifies this`search, this`page
      ensures Valid()
      ensures search == searchInput && page == 1
    {
      page := 1;
      search := searchInput;
    }

    /** `handleCategory`: the active category is cleared when chosen again, set otherwise; back to page 1. */
    method ChooseCategory(cat: string)
      requires Valid()
      modifies this`activeCategory, this`page
      ensures Valid()
      ensures activeCategory == if old(activeCategory) == cat then "" else cat
      ensures page == 1
    {
      activeCategory := if activeCategory == cat then "" else cat;
      page := 1;
    }

      /**
      The Previous button: `goToPage(Math.max(1, page - 1))`. It is disabled on page 1
      (and not rendered at all when there is only one page), so a click there does nothing.
     */
    method PreviousPage()
      requires Valid()
      modifies this`page, this`scrollTop
      ensures Valid()
      ensures old(page) == 1 ==> page == 1 && scrollTop == old(scrollTop)
      ensures old(page) > 1 ==> page == old(page) - 1 && scrollTop == PagerScrollTop
    {
      if page != 1 {
        page := if page - 1 < 1 then 1 else page - 1;
        scrollTop := PagerScrollTop;
      }
    }

    /**
      The Next button: `goToPage(Math.min(totalPages, page + 1))`. It is disabled on the
      last page (and not rendered when there is only one), so a click there does nothing.
     */
    method NextPage()
      requires Valid()
      modifies this`page, this`scrollTop
      ensures Valid()
      ensures old(page) == PageCount() ==> page == old(page) && scrollTop == old(scrollTop)
      ensures old(page) < PageCount() ==> page == old(page) + 1 && scrollTop == PagerScrollTop
    {
      var total := PageCount();
      if page != total {
        page := if total < page + 1 then total else page + 1;
        scrollTop := PagerScrollTop;
      }
    }

    /** The numbered button `i + 1`: the pager, and so the button, exists only when there is more than one page. */
    method NumberedPage(i: nat)
      requires Valid() && 1 < PageCount() && i < PageCount()
      modifies this`page, this`scrollTop
      ensures Valid()
      ensures page == i + 1 && scrollTop == PagerScrollTop
    {
      page := i + 1;
      scrollTop := PagerScrollTop;
    }

    /** The Retry button: clears the error and returns to page 1; it does not fetch again. */
    method Retry()
      requires Valid()
      modifies this`page, this`error
      ensures Valid()
      ensures page == 1 && error == None
    {
      page := 1;
      error := None;
    }

    /** The Clear filters button: no category, no search, page 1; the listing is then all posts. */
    method ClearFilters()
      requires Valid()
      modifies this`search, this`searchInput, this`activeCategory, this`page
      ensures Valid()
      ensures search == "" && searchInput == "" && activeCategory == "" && page == 1
      ensures Filtered() == allPosts
    {
      search := "";
      searchInput := "";
      activeCategory := "";
      page := 1;
    }
  }
}
