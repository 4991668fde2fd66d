/**
  The article page (src/pages/BlogDetailPage.tsx): loading one post by its slug,
  with the redirect on 404 and the error message on any other failure, the choice of
  the post inside the response body, and the reading-progress bar driven by a scroll
  listener that exists only while a post and the bar element do.
 */
module BlogDetail {
  import opened Wrappers
  import opened BlogListing

  /**
    The bar width in percent: how far the window has scrolled through the scrollable
    height `docH` (document height minus viewport height), capped at 100.
   */
  function ProgressPercent(scrollY: real, docH: real): (pct: real)
    ensures pct <= 100.0
    ensures docH <= 0.0 ==> pct == 0.0
    ensures docH > 0.0 && scrollY >= docH ==> pct == 100.0
    ensures docH > 0.0 && 0.0 <= scrollY < docH ==> 0.0 <= pct < 100.0
    ensures docH > 0.0 && scrollY < 0.0 ==> pct < 0.0
  {
    if docH > 0.0 then
      var raw := scrollY / docH * 100.0;
      if raw < 100.0 then raw else 100.0
    else 0.0
  }

  /** For a fixed scrollable height, scrolling further down never shortens the bar. */
  lemma ProgressMonotone(y1: real, y2: real, docH: real)
    requires y1 <= y2
    ensures ProgressPercent(y1, docH) <= ProgressPercent(y2, docH)
  {
    if docH > 0.0 {
      assert y2 / docH - y1 / docH == (y2 - y1) / docH;
      assert (y2 - y1) / docH >= 0.0;
    }
  }

  /** The parsed response body: its `data` and `post` members when present, and the body read as a post itself. */
  datatype DetailBody = DetailBody(data: Option<BlogPost>, post: Option<BlogPost>, asPost: BlogPost)

  /** `data.data || data.post || data`. */
  function SelectPost(body: DetailBody): (p: BlogPost)
    ensures body.data.Some? ==> p == body.data.value
    ensures body.data.None? && body.post.Some? ==> p == body.post.value
    ensures body.data.None? && body.post.None? ==> p == body.asPost
  {
    match body.data
    case Some(d) => d
    case None => body.post.GetOr(body.asPost)
  }

  /** How the request for one post ended. */
  datatype FetchResult =
    | Responded(status: int, body: DetailBody)
    | Threw    // the request or the parsing of the body threw

  /** `res.ok`: a status in the 200 range. */
  predicate IsOk(status: int) {
    200 <= status <= 299
  }

  /** A navigation done by the page: the target path and whether it replaces the history entry. */
  datatype Redirect = Redirect(to: string, replace: bool)

  /** `!slug` is false: the route gave a slug and it is not the empty string. */
  predicate HasSlug(slug: Option<string>) {
    slug.Some? && slug.value != ""
  }

  const BlogIndex: Redirect := Redirect("/blog", true)

  const DetailLoadError: string := "Failed to load this article. Please try again."

  class BlogDetailPage {
    var slug: Option<string>
    var post: Option<BlogPost>
    var loading: bool
    var error: Option<string>
    var redirect: Option<Redirect>
    /** Requests started and not yet finished; a slug change does not cancel the earlier ones. */
    var pendingFetches: nat
    /** The window's vertical scroll position. */
    var scrollTop: real
    /** Whether the progress bar element is in the document. */
    var barPresent: bool
    /** Whether the scroll listener that updates the bar is installed. */
    var listening: bool
    /** The bar's width in percent. */
    var barWidth: real

    ghost predicate Valid()
      reads this
    {
      && (listening ==> barPresent && post.Some?)
      && barWidth <= 100.0
    }

    /**
      Mounting with the route's `slug`: the window is scrolled to the top, the bar is
      empty, and the request is started when there is a non-empty slug. Without one
      nothing is requested and the page keeps showing its loading state.
     */
    constructor (slug: Option<string>, barPresent: bool)
      ensures Valid()
      ensures this.slug == slug && this.barPresent == barPresent
      ensures post == None && loading && error == None && redirect == None
      ensures HasSlug(slug) ==> pendingFetches == 1
      ensures !HasSlug(slug) ==> pendingFetches == 0
      ensures scrollTop == 0.0 && !listening && barWidth == 0.0
    {
      this.slug := slug;
      post := None;
      loading := true;
      error := None;
      redirect := None;
      pendingFetches := if HasSlug(slug) then 1 else 0;
      scrollTop := 0.0;
      this.barPresent := barPresent;
      listening := false;
      barWidth := 0.0;
    }

    /** The route's slug changes: back to the top, and a new request unless the slug is gone or empty. */
    method ChangeSlug(newSlug: Option<string>)
      requires Valid() && newSlug != slug
      modifies this`slug, this`scrollTop, this`loading, this`error, this`pendingFetches
      ensures Valid() && slug == newSlug && scrollTop == 0.0
      ensures HasSlug(newSlug) ==> loading && error == None && pendingFetches == old(pendingFetches) + 1
      ensures !HasSlug(newSlug) ==>
        loading == old(loading) && error == old(error) && pendingFetches == old(pendingFetches)
    {
      slug := newSlug;
      scrollTop := 0.0;
      if HasSlug(newSlug) {
        loading := true;
        error := None;
        pendingFetches := pendingFetches + 1;
      }
    }

    /**
      A request finishes. A 404 sends the reader to the blog index, replacing the history
      entry, and sets no error; any other failure sets the error message; a success shows
      the selected post and installs the scroll listener when the bar exists. Loading ends
      in every case.
     */
    method FetchCompletes(result: FetchResult)
      requires Valid() && pendingFetches > 0
      modifies this`post, this`loading, this`error, this`redirect, this`pendingFetches, this`listening
      ensures Valid() && !loading && pendingFetches == old(pendingFetches) - 1
      ensures result.Responded? && result.status == 404 ==>
        redirect == Some(BlogIndex) && error == old(error) && post == old(post) && listening == old(listening)
      ensures (result.Threw? || (result.status != 404 && !IsOk(result.status))) ==>
        error == Some(DetailLoadError) && redirect == old(redirect) && post == old(post) && listening == old(listening)
      ensures result.Responded? && IsOk(result.status) ==>
        post == Some(SelectPost(result.body)) && listening == barPresent
          && error == old(error) && redirect == old(redirect)
    {
      match result {
        case Responded(status, body) =>
          if status == 404 {
            redirect := Some(BlogIndex);
          } else if !IsOk(status) {
            error := Some(DetailLoadError);
          } else {
            post := Some(SelectPost(body));
            listening := barPresent;
          }
        case Threw =>
          error := Some(DetailLoadError);
      }
      loading := false;
      pendingFetches := pendingFetches - 1;
    }

    /**
      The window scrolls to `scrollY` in a document of height `scrollHeight` seen through a
      viewport of height `innerHeight`; the bar follows only while the listener is installed.
     */
    method OnScroll(scrollY: real, scrollHeight: real, innerHeight: real)
      requires Valid()
      modifies this`scrollTop, this`barWidth
      ensures Valid() && scrollTop == scrollY
      ensures listening ==> barWidth == ProgressPercent(scrollY, scrollHeight - innerHeight)
      ensures !listening ==> barWidth == old(barWidth)
    {
      scrollTop := scrollY;
      if listening {
        barWidth := ProgressPercent(scrollY, scrollHeight - innerHeight);
      }
    }

    /** Unmounting removes the scroll listener. */
    method Unmount()
      requires Valid()
      modifies this`listening
      ensures Valid() && !listening
    {
      listening := false;
    }
  }

  /** Until a post has loaded, scrolling never moves the bar off 0%. */
  method BarStaysEmptyWithoutPost(page: BlogDetailPage, scrollY: real, scrollHeight: real, innerHeight: real)
    requires page.Valid() && page.post == None && page.barWidth == 0.0
    modifies page
    ensures page.barWidth == 0.0
  {
    page.OnScroll(scrollY, scrollHeight, innerHeight);
  }
}
