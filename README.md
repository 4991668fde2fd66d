# GCA Pay website: verified model of its page logic

The GCA Pay marketing site is a React single-page application. Most of it is markup and
animation settings handed to GSAP. This project models in Dafny the parts that make
decisions, and proves what they promise:

- **Blog listing** (`BlogListing`; helper modules `SeqFilter` and `Text`):
  - the fetched posts are filtered by exact category name and by a case-insensitive
    substring search over title or excerpt;
  - the result is paged nine to a page, with `totalPages = max(1, ceil(n / 9))`;
  - the category buttons list each distinct non-empty category name, in order of first
    appearance;
  - each card's entrance delay cycles 0, 0.1, 0.2 s with its index on the page;
  - the page's state — page number, active category, typed and submitted search,
    loading and error — is a class whose handlers keep the page number in range.
- **Statement sections** (`StatementSection`): the entrance and exit presets for the five
  directions, the six-tween scroll timeline built from them, the rebuild when the
  direction changes, and the z-order of the three sections on the home page.
- **Hero** (`HeroSection`): the phrase rotator (a round-robin index over five phrases,
  advanced when the fade-out started by a 3-second interval completes); the load
  timeline, with each tween's target, number of elements, start and end values,
  position, duration and stagger; and the positions and end values of the scroll-out
  timeline.
- **Article page** (`BlogDetail`): the request lifecycle for one non-empty slug (404 redirect, error
  message, post selection from the body), scroll-to-top on slug change, and the
  reading-progress bar with its capped percentage and its conditional scroll listener.
- **Header** (`Navigation`): the scroll-threshold classes, the hover dropdown with its
  cancellable 150 ms close, the mobile menu toggles and their reset on route change, and
  the anchor-or-route choice for the section links.
- **Contact page** (`ContactPage`): the FAQ accordion (at most one open) and the five-field
  form (one field per change, required fields gating submission, nothing cleared on submit).

JavaScript semantics are written out where they matter:
- `Array.prototype.filter` is `SeqFilter.Keep`;
- `slice`, with negative and out-of-range clamping, is `SeqFilter.JsSlice`;
- `Array.from(new Set(xs))` is an insertion-ordered set, `SeqFilter.InsertAll`, proved
  equal to a reference "first occurrences" definition;
- `String.prototype.includes` is `Text.Includes`, proved equivalent to "occurs at some index";
- `toLowerCase` is `Text.Lower`, on ASCII letters.

Nothing is requested over the network in the model. A fetch is an input: the outcome it
delivers is a parameter of the method that completes it.

## Model

| member | source | states |
|---|---|---|
| `Text.LowerChar` | src/pages/BlogPage.tsx:163-166 | the lower-cased character is never an upper-case letter, differs by 32 from an upper-case input and equals any other input |
| `Text.Lower` | src/pages/BlogPage.tsx:163-166 | `toLowerCase` keeps the length, turns each upper-case letter into its lower-case letter (code + 32), leaves no upper-case letter and changes no other character |
| `Text.LowerIdempotent` | src/pages/BlogPage.tsx:163 | lower-casing an already lower-cased query changes nothing |
| `Text.IncludesIffOccurs` | src/pages/BlogPage.tsx:165-166 | the left-to-right scan of `includes` succeeds exactly when the query occurs at some index of the text |
| `Text.Includes` | src/pages/BlogPage.tsx:165-166 | `includes` fails for a query longer than the text and holds for the text itself |
| `Text.IncludesEmpty` | src/pages/BlogPage.tsx:165-166 | every text includes the empty query |
| `SeqFilter.Keep` | src/pages/BlogPage.tsx:161-167 | `filter` returns no more elements than it is given, and an element is in the result exactly when it is in the input and passes the test |
| `SeqFilter.KeepIsSubsequence` | src/pages/BlogPage.tsx:161-167 | `filter` keeps its elements in their original order (an order-preserving subsequence) |
| `SeqFilter.KeepFusion` | src/pages/BlogPage.tsx:160-169 | filtering by one test and then another is filtering once by their conjunction |
| `SeqFilter.KeepAll` | src/pages/BlogPage.tsx:160 | a filter every element passes returns the list unchanged |
| `SeqFilter.KeepPartition` | src/pages/BlogPage.tsx:161-167 | the kept and the dropped elements together are exactly the input, as a multiset |
| `SeqFilter.SliceIndex` | src/pages/BlogPage.tsx:173 | a `slice` argument is counted from the end when negative and clamped to the length |
| `SeqFilter.JsSlice` | src/pages/BlogPage.tsx:173 | for in-order non-negative bounds `slice` is the sub-sequence between the bounds clamped to the length |
| `SeqFilter.FirstOccurrencesElements` | src/pages/BlogPage.tsx:200-202 | keeping first occurrences loses and invents no value |
| `SeqFilter.FirstOccurrencesDistinct` | src/pages/BlogPage.tsx:200-202 | keeping first occurrences leaves no duplicate |
| `SeqFilter.FirstOccurrencesIsSubsequence` | src/pages/BlogPage.tsx:200-202 | keeping first occurrences keeps the input's order |
| `SeqFilter.InsertAll` | src/pages/BlogPage.tsx:200-202 | inserting values into an insertion-ordered set keeps what was there in its place, grows it by at most the number inserted, and leaves it holding exactly the old values and the inserted ones |
| `SeqFilter.InsertAllFirstOccurrences` | src/pages/BlogPage.tsx:200-202 | inserting values one by one into an insertion-ordered set yields the first occurrences of everything seen |
| `SeqFilter.Distinct` | src/pages/BlogPage.tsx:200-202 | `Array.from(new Set(xs))` is the first occurrences of `xs`: the same values, each once, in their order in `xs` |
| `BlogListing.FilteredIsSelection` | src/pages/BlogPage.tsx:159-170 | the category filter followed by the search filter selects exactly the posts that pass both active criteria, in order |
| `BlogListing.FilteredPosts` | src/pages/BlogPage.tsx:159-170 | `filteredPosts` is no longer than all posts and holds exactly the posts that pass both active criteria |
| `BlogListing.FilteredPostsSpec` | src/pages/BlogPage.tsx:159-170 | `filteredPosts` is an order-preserving subsequence of all posts; a post is in it iff it passes both active criteria; kept and dropped posts together are all the posts |
| `BlogListing.NoCriteriaListsAll` | src/pages/BlogPage.tsx:159-170 | with no category and an empty search every post is listed |
| `BlogListing.SearchIgnoresCase` | src/pages/BlogPage.tsx:162-167 | a search gives the same result whatever the case of its query |
| `BlogListing.TotalPages` | src/pages/BlogPage.tsx:172 | the page count is at least 1, is 1 for no posts, and otherwise is the fewest pages of nine that hold all posts |
| `BlogListing.PageOf` | src/pages/BlogPage.tsx:173 | a page holds at most nine posts |
| `BlogListing.PagesFromSuffix` | src/pages/BlogPage.tsx:172-173 | pages `first` to `totalPages` together are the filtered posts from position `(first - 1) * 9` on |
| `BlogListing.PagesCoverFiltered` | src/pages/BlogPage.tsx:172-173 | pages 1 to `totalPages`, read in order, give back the filtered posts exactly |
| `BlogListing.PagesInRangeAreNonEmpty` | src/pages/BlogPage.tsx:172-173 | when some post passes the filters, every page from 1 to `totalPages` shows at least one post |
| `BlogListing.CategoryNamesSpec` | src/pages/BlogPage.tsx:201 | the mapped and `Boolean`-filtered names are exactly the non-empty category names of the posts |
| `BlogListing.CategoryNames` | src/pages/BlogPage.tsx:201 | the mapped and `Boolean`-filtered names are at most one per post and never empty |
| `BlogListing.CategoryList` | src/pages/BlogPage.tsx:200-203 | the category buttons name each non-empty category of the posts exactly once, and nothing else |
| `BlogListing.CategoryListSpec` | src/pages/BlogPage.tsx:200-203 | the category list has no duplicates, holds exactly the non-empty category names of the posts, in order of first occurrence |
| `BlogListing.CardDelay` | src/pages/BlogPage.tsx:73 | a card's delay lies between 0 and 0.2 s and is 0 exactly for indices divisible by 3 (the first column of the three-column grid) |
| `BlogListing.BlogListingPage.constructor` | src/pages/BlogPage.tsx:150-157 | the page starts on page 1, with no posts, no categories, no filters and the load in progress |
| `BlogListing.BlogListingPage.ReceivePosts` | src/pages/BlogPage.tsx:189-212 | a successful load stores the list (empty when absent) and its category list; a failure sets the error message; loading ends either way and the page stays valid |
| `BlogListing.BlogListingPage.TypeSearch` | src/pages/BlogPage.tsx:262 | typing changes the search box only, not the filtered list or the visible cards |
| `BlogListing.BlogListingPage.SubmitSearch` | src/pages/BlogPage.tsx:214-218 | submitting applies the typed text as the search and returns to page 1 |
| `BlogListing.BlogListingPage.ChooseCategory` | src/pages/BlogPage.tsx:220-223 | choosing the active category clears it, choosing another sets it; page 1 either way |
| `BlogListing.BlogListingPage.PreviousPage` | src/pages/BlogPage.tsx:357-361 | the pager exists only with more than one page; Previous is disabled on page 1, where a click changes nothing; elsewhere it goes one page back and scrolls to 400; the page stays in range |
| `BlogListing.BlogListingPage.NextPage` | src/pages/BlogPage.tsx:384-385 | Next is disabled on the last page, where a click changes nothing; elsewhere it goes one page on and scrolls to 400; the page stays in range |
| `BlogListing.BlogListingPage.NumberedPage` | src/pages/BlogPage.tsx:357-371 | the numbered buttons exist only when there is more than one page; the button for `i < totalPages` goes to page `i + 1`, which is in range, and scrolls to 400 |
| `BlogListing.BlogListingPage.Retry` | src/pages/BlogPage.tsx:314 | Retry clears the error and returns to page 1 |
| `BlogListing.BlogListingPage.ClearFilters` | src/pages/BlogPage.tsx:339 | Clear filters empties both searches and the category, returns to page 1, and the listing is then all posts |
| `StatementSection.DirectionOrDefault` | src/components/sections/StatementSection.tsx:18 | an absent direction is `bottom`; a given one is kept |
| `StatementSection.EntranceFrom` | src/components/sections/StatementSection.tsx:41-58 | every entrance preset starts invisible and moves one channel: vertical ones in vh, horizontal ones in vw, negative for top and left, positive for bottom and right, scale below 1 |
| `StatementSection.ExitTo` | src/components/sections/StatementSection.tsx:78-95 | every exit preset ends invisible and moves one channel; the scale exit grows past full size |
| `StatementSection.ExitContinuesEntrance` | src/components/sections/StatementSection.tsx:41-95 | the exit moves the entrance's channel in the same unit, to the opposite side and by less; scale goes from below 1 to above 1 |
| `StatementSection.ScrollTimelineShape` | src/components/sections/StatementSection.tsx:60-112 | one entrance and one exit tween per target; every entrance starts before every exit; entrances start invisible and settle at the rest state; exits start visible; the subheadline exit only fades; the background ends half visible and enlarged |
| `StatementSection.ScrollTimeline` | src/components/sections/StatementSection.tsx:60-112 | the timeline has six tweens; the headline enters from the entrance preset and leaves by the exit preset; every entrance starts before 0.3 and every exit at 0.7 or later |
| `StatementSection.Setup` | src/components/sections/StatementSection.tsx:24-28 | a timeline is built exactly when the section element exists, and it is the scroll timeline for the mounted direction, so the binding starts out current |
| `StatementSection.Rerender` | src/components/sections/StatementSection.tsx:116-117 | the same direction keeps the current binding; a new direction rebuilds it for that direction exactly when the section exists |
| `StatementSection.RerenderKeepsCurrent` | src/components/sections/StatementSection.tsx:116-117 | re-rendering never leaves a timeline built for an old direction; a changed direction rebuilds when the section exists |
| `StatementSection.HomeStatementsStackAscending` | src/App.tsx:51-79 | each statement section stacks above the ones before it (z-index 30, 40, 50) |
| `HeroSection.NextPhraseIndex` | src/components/sections/HeroSection.tsx:41 | the next index stays below 5, wraps to 0 exactly after the last phrase and otherwise is one more |
| `HeroSection.AfterCycles` | src/components/sections/HeroSection.tsx:41 | after any number of cycles the index is below 5 |
| `HeroSection.AfterCyclesRoundRobin` | src/components/sections/HeroSection.tsx:10-16 | after `k` cycles from `i` the index is `(i + k) mod 5`: phrases are visited in list order |
| `HeroSection.FullRotation` | src/components/sections/HeroSection.tsx:10-41 | five cycles return to the starting phrase, and the five before show five different phrases |
| `HeroSection.PhraseRotator.constructor` | src/components/sections/HeroSection.tsx:28-32 | the rotator starts at index 0, showing "move money", with the interval running |
| `HeroSection.PhraseRotator.IntervalFires` | src/components/sections/HeroSection.tsx:32-35 | an interval tick starts a fade-out only when the text element exists, and never changes the index itself |
| `HeroSection.PhraseRotator.FadeOutCompletes` | src/components/sections/HeroSection.tsx:40-41 | a completed fade-out advances the index by one place, wrapping, while mounted |
| `HeroSection.PhraseRotator.Unmount` | src/components/sections/HeroSection.tsx:54 | unmounting clears the interval |
| `HeroSection.UnmountedRotatorIsFrozen` | src/components/sections/HeroSection.tsx:31-55 | after unmounting neither a tick nor a completing fade-out changes the phrase |
| `HeroSection.ChildStart` | src/components/sections/HeroSection.tsx:70-94 | with a non-negative stagger no element of a tween starts before the tween's position |
| `HeroSection.ChildEnd` | src/components/sections/HeroSection.tsx:65-94 | with a non-negative duration an element finishes no earlier than it starts |
| `HeroSection.LoadTimelineOrder` | src/components/sections/HeroSection.tsx:65-94 | each target animates once on load, in the order background, headline, card, subheadline, calls to action, card text; only the card-text wrapper holds more than one element, so the headline's stagger spreads nothing |
| `HeroSection.LoadTimelineSettles` | src/components/sections/HeroSection.tsx:65-94 | every load tween starts invisible and displaced or shrunk or enlarged, and ends fully visible, with no offset and at full size, in exactly the channels it starts from |
| `HeroSection.LoadTimelineEndsWithCardText` | src/components/sections/HeroSection.tsx:90-94 | the second card-text element starts last and finishes last, at 1.55 s; every element of the load timeline has finished by then |
| `HeroSection.ScrollOutHidesAll` | src/components/sections/HeroSection.tsx:107-139 | the five scroll-out tweens target five elements, all start at 0 and fade out fully; text moves up, card and background grow |
| `BlogDetail.ProgressPercent` | src/pages/BlogDetailPage.tsx:95-97 | the percentage never exceeds 100; it is 0 when nothing can scroll, 100 at or past the bottom, in [0, 100) in between, and negative for a negative scroll position |
| `BlogDetail.ProgressMonotone` | src/pages/BlogDetailPage.tsx:97 | scrolling further never shortens the bar |
| `BlogDetail.SelectPost` | src/pages/BlogDetailPage.tsx:79 | the post is `data.data`, else `data.post`, else the body itself |
| `BlogDetail.BlogDetailPage.constructor` | src/pages/BlogDetailPage.tsx:58-72 | the page starts loading, scrolled to the top, with an empty bar, and requests the post exactly when the slug is present and non-empty |
| `BlogDetail.BlogDetailPage.ChangeSlug` | src/pages/BlogDetailPage.tsx:65-73 | a new slug scrolls to the top; a present, non-empty one starts a new request with loading on and the error cleared; a missing or empty one changes nothing else |
| `BlogDetail.BlogDetailPage.FetchCompletes` | src/pages/BlogDetailPage.tsx:74-85 | a 404 redirects to `/blog`, replacing history, without an error; other failures set the error message; success shows the selected post and installs the listener if the bar exists; loading ends every time |
| `BlogDetail.BlogDetailPage.OnScroll` | src/pages/BlogDetailPage.tsx:94-100 | while the listener is installed the bar width is the progress percentage; otherwise it stays |
| `BlogDetail.BlogDetailPage.Unmount` | src/pages/BlogDetailPage.tsx:101 | unmounting removes the scroll listener |
| `BlogDetail.BarStaysEmptyWithoutPost` | src/pages/BlogDetailPage.tsx:93 | before a post is shown no scroll moves the bar off 0% |
| `Navigation.ClassesAfterScroll` | src/components/sections/Navigation.tsx:18-26 | the background classes are present exactly when the scroll position is above 100; other classes are untouched |
| `Navigation.ScrollForgetsHistory` | src/components/sections/Navigation.tsx:20-24 | the class list depends only on the latest scroll position; repeated events at one position change nothing |
| `Navigation.SectionLink` | src/components/sections/Navigation.tsx:90-94 | the Products and Insights links are in-page anchors exactly on the home page, always to `#id` |
| `Navigation.Href` | src/components/sections/Navigation.tsx:90-94 | an anchor's href is its fragment; a route's href is its path followed by its fragment |
| `Navigation.Destination` | src/components/sections/Navigation.tsx:134-144 | a click keeps the fragment; an anchor stays on the current page and a route goes to its path |
| `Navigation.SectionLinkReachesHome` | src/components/sections/Navigation.tsx:134-144 | from any page the link leads to the home page URL `/` with fragment `#id`; its href is `#id` at home and `/#id` elsewhere |
| `Navigation.NavigationBar.constructor` | src/components/sections/Navigation.tsx:11-15 | the header starts with every menu closed and no close scheduled |
| `Navigation.NavigationBar.OnScroll` | src/components/sections/Navigation.tsx:18-26 | a scroll event updates the classes by the threshold, and changes nothing without the nav element |
| `Navigation.NavigationBar.RouteChange` | src/components/sections/Navigation.tsx:32-35 | a new pathname closes the mobile menu and its payment sub-menu |
| `Navigation.NavigationBar.MouseEnter` | src/components/sections/Navigation.tsx:37-42 | entering cancels the pending close and opens the dropdown |
| `Navigation.NavigationBar.MouseLeave` | src/components/sections/Navigation.tsx:44-48 | leaving schedules one new close and stores its handle |
| `Navigation.NavigationBar.CloseFires` | src/components/sections/Navigation.tsx:45-47 | a scheduled close that fires closes the dropdown |
| `Navigation.NavigationBar.DropdownLinkClick` | src/components/sections/Navigation.tsx:116-129 | clicking a dropdown link closes the dropdown |
| `Navigation.NavigationBar.ToggleMobileMenu` | src/components/sections/Navigation.tsx:163 | the menu button flips the mobile menu |
| `Navigation.NavigationBar.ToggleMobilePayment` | src/components/sections/Navigation.tsx:202 | the mobile Payment Gateway button flips its sub-menu |
| `Navigation.NavigationBar.MobileLinkClick` | src/components/sections/Navigation.tsx:180-275 | clicking a mobile link closes the mobile menu |
| `Navigation.ReenterKeepsDropdownOpen` | src/components/sections/Navigation.tsx:37-48 | leaving and re-entering before the close fires leaves the dropdown open with no close pending |
| `ContactPage.WithField` | src/pages/ContactPage.tsx:137-139 | the spread update sets the named field and leaves the other four unchanged |
| `ContactPage.WithFieldLaws` | src/pages/ContactPage.tsx:137-139 | writing a field's own value changes nothing; of two writes to a field the later wins |
| `ContactPage.WithFieldCommutes` | src/pages/ContactPage.tsx:137-139 | changes to two different fields commute |
| `ContactPage.SubmittableIffRequiredFilled` | src/pages/ContactPage.tsx:206-270 | the empty initial form cannot be sent; a form can be sent exactly when name, email, subject and message are filled in |
| `ContactPage.ToggleFaq` | src/pages/ContactPage.tsx:355 | clicking entry `i` closes all when `i` was open, and otherwise opens `i` alone |
| `ContactPage.ToggleFaqTwice` | src/pages/ContactPage.tsx:355 | two clicks on the same entry leave it open if it was open, and otherwise leave every entry closed |
| `ContactPage.ContactForm.constructor` | src/pages/ContactPage.tsx:16-23 | no FAQ entry is open and all five fields are empty |
| `ContactPage.ContactForm.ClickFaq` | src/pages/ContactPage.tsx:349-368 | a click flips entry `i` and leaves every other entry closed, so at most one is open |
| `ContactPage.ContactForm.InputChange` | src/pages/ContactPage.tsx:137-139 | a change sets the named field and leaves the other four as they were |
| `ContactPage.ContactForm.Submit` | src/pages/ContactPage.tsx:141-146 | submission proceeds exactly when the required fields are filled, reports the form unchanged and shows the thank-you notice |

## Left out

- GSAP and ScrollTrigger themselves are left out: pinning, scrubbing, easing and
  interpolation. Their source is not shown. Timelines are modelled only as the settings
  the code passes in: targets, positions, start and end values, and, for the hero's load
  timeline, durations, staggers and the number of elements each target holds. From these
  the start and end time of each staggered element are modelled (`HeroSection.ChildStart`,
  `HeroSection.ChildEnd`); the values in between are not.
- `Navigation.SectionLinkReachesHome` promises only the URL. Off the home page the section
  link is a router link to `/#id`, and nothing in the code scrolls to the fragment after
  the route change, so whether the section comes into view is not modelled.
- The ScrollTrigger options are not modelled: `start`, `end`, `pin`, `scrub` and
  `pinSpacing`.
- The articles animate in (src/pages/BlogDetailPage.tsx:105-122), and the hero phrase
  animates in after a change (src/components/sections/HeroSection.tsx:43-48). Neither is
  modelled: they set animation values only.
- The network requests are not modelled (src/pages/BlogPage.tsx:189-212 and
  src/pages/BlogDetailPage.tsx:69-88). Their outcome is a parameter of
  `ReceivePosts` and `FetchCompletes`.
- JSON parsing failures are folded into the request failure they produce.
- `console.log`, `console.error` and `alert` are not modelled. `Submit` returns the
  reported form and the notice text instead.
- Locale date formatting (`toLocaleDateString`, `toLocaleString`) is not modelled.
- Markup, styling, static copy and the FAQ answers are not modelled.
- `Text.Lower`: models `toLowerCase` on ASCII letters only. Unicode case mapping is not
  modelled.
- `BlogListing.BlogPost` holds only the fields the listing and the article logic read:
  id, title, slug, excerpt and category. Content, dates, counters, image and tags are
  display only.
- `BlogDetail.SelectPost`: a `data.data` or `data.post` that is present but falsy is
  treated as absent, as `||` does. The body is assumed to be an object, so it is always
  used as the last resort. A `null` body (reading `data.data` throws, and the catch sets
  the error) and a string or number body (handed to `setPost` as it is) are not modelled.
- `ContactPage.ContactForm.Submit`: the browser's check that the email field holds an
  address is not modelled. Only the `required` attributes gate submission.
- The timers are events, not clock time. The 3000 ms interval is `IntervalFires`, and
  the 150 ms close is `CloseFires`. Their ordering in time is not modelled.
- Navigation's `pointerInside` is ghost. It makes mouse-enter and mouse-leave alternate
  as the browser delivers them.
- The article page does not cancel a request when the slug changes. A stale response
  can still complete and set its post, and the model allows this: `FetchCompletes` does
  not check which slug it answers.
- The exchange-rate page (currency conversion in floating point, its fallback request
  and its refresh interval) is not part of this model.
- The other declarative pages and sections are not part of this model: collection,
  products, about, developers, trusted-by, CTA, insights, careers, terms, privacy, footer.
- The scroll restoration and delayed `ScrollTrigger.refresh` in `src/App.tsx` are not
  part of this model, and neither is the routing in `src/main.tsx`.
