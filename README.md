# HXPageViewController, modelled in Dafny

HXPageViewController is a paged-content widget for iOS. It has two parts:

- `HXPageContainer` pages child view controllers horizontally in an
  `HXPageContentView`. It keeps a cache of the pages it has added. It forwards
  appearance transitions to those pages by hand and reports transitions to its
  delegate.
- `HXPageTabBar` is a row of titled tabs above the pages. It keeps one tab
  selected, slides an indicator under that tab, and follows the paging scroll
  view it is linked to.

The model covers the index, selection, cache and layout logic of these two
parts and of their two helpers:

- `HXPageContentView` converts between offsets, page indices and page frames.
- `HXPageTabBarItem` holds the interpolation utilities, the item model and
  the choice of font and colour a cell shows.

Six files make up the model:

- `wrappers.dfy` (module `Wrappers`) holds `Option`.
- `numerics.dfy` (module `Numerics`) holds `Min`, `Max`, `Abs` and two facts about products of reals.
- `tab_bar_item.dfy` (module `TabBarItem`) models `HXPageTabBarItem.swift`
  as pure functions: `Lerp` is `interpolationValue`, `InterpolationFont`,
  `InterpolationColor`, the `ItemModel` record and `ConfigItem`.
  `interpolationFont` appears twice: `InterpolationFontAsWritten` is the
  source's code, `InterpolationFont` the blend it evidently intends (see
  "## Findings"). `FontBlend` names the two, and `BlendFont` picks one.
- `content_view.dfy` (module `ContentView`) models
  `HXPageContentView.swift`. The scroll view is a record of its horizontal
  offset, bounds, content width and whether it is being dragged. The index,
  offset and frame conversions and the routing of `setContentOffset` are pure
  functions. `PageOffset(i, w)` is the left edge of page `i`, that is
  `CGFloat(i) * w`. It is written as a sum of widths, and
  `PageOffsetIsProduct` proves it equal to the product.
- `page_container.dfy` (module `PageContainer`) models
  `HXPageContainer.swift` as the class `Container`, whose fields are the Swift
  stored properties:
  - `currentIndex`, `lastIndex`, `lastOffsetX`, `potentialIndex` (initially
    -999), `hasProcessAppearance` and the cache.
  - The children of the view controller.
  - What each child has been told about its appearance, as a map
    `Controller -> Settled(visible) | Pending(appearing)`.
  - An appended log of delegate callbacks.

  Controllers are integer identities. The data source is a value holding the
  pages and the optional default index. Each method updates exactly the
  fields its `modifies` clause names. Module-level functions (`Begun`,
  `Finished`, `Cancelled`, `Kept`, `Lookup`) name the effects, and lemmas state
  what those effects mean.
- `page_tab_bar.dfy` (module `PageTabBar`) models `HXPageTabBar.swift`. The
  data source is a value (`TabSource`) whose optional answers are `Option`s.
  Text measurement is the function `measure` inside it. The class `TabBar`
  holds:
  - the selection, the item models and the spacing;
  - the last offset of the linked view;
  - the indicator;
  - the collection view's content width and offset;
  - a log of delegate callbacks and of the offsets the tab bar asks the
    linked view to take.

  The layout, which is built by accumulating loops in `refreshCurrentState`
  and `itemFrame`, is proved against recursive sums (`Advance`, `Extent`,
  `SpacingFor`). `contentSrollViewDidChanged` is proved against the pure
  decision `Observe`.
  `ItemModelAt` takes the font blend as a parameter. The `TabBar` class
  always builds its models with `AsWritten`, as the source does. The
  lemmas say which facts need the intended blend or one shared title face.

`CGFloat` is modelled as an exact `real`. Swift's `Int(x)` is truncation
toward zero (`TruncateToInt`).

## Model

| member | source | states |
|---|---|---|
| TabBarItem.Clamp01 | HXPageViewController/HXPageViewController/HXPageViewController/HXPageTabBarItem.swift:22 | the progress is clamped into [0, 1]: unchanged inside, 0 below, 1 above |
| TabBarItem.Lerp | HXPageViewController/HXPageViewController/HXPageViewController/HXPageTabBarItem.swift:21-24 | gives `from` for progress <= 0 and `to` for progress >= 1; the result always lies between `from` and `to` |
| TabBarItem.LerpSame | HXPageViewController/HXPageViewController/HXPageViewController/HXPageTabBarItem.swift:21-24 | blending a value with itself gives that value for every progress |
| TabBarItem.LerpFraction | HXPageViewController/HXPageViewController/HXPageViewController/HXPageTabBarItem.swift:21-24 | inside [0, 1] the result has moved exactly the fraction `percent` of the way |
| TabBarItem.LerpMonotone | HXPageViewController/HXPageViewController/HXPageViewController/HXPageTabBarItem.swift:21-24 | increasing in the progress when from <= to, decreasing when from >= to |
| TabBarItem.InterpolationFontAsWritten | HXPageViewController/HXPageViewController/HXPageViewController/HXPageTabBarItem.swift:33-39 | as the source writes it: the size is blended and the from-font's descriptor is kept, whatever the progress |
| TabBarItem.AsWrittenMissesTarget | HXPageViewController/HXPageViewController/HXPageViewController/HXPageTabBarItem.swift:33-39 | with two different faces the as-written blend never equals the target font; at full progress it is the from-face at the target size |
| TabBarItem.InterpolationFont | HXPageViewController/HXPageViewController/HXPageViewController/HXPageTabBarItem.swift:33-39 | corrected blend: the size is blended, the from-face is kept before full progress, and the result is exactly `fromFont` at progress <= 0 and `toFont` at >= 1 |
| TabBarItem.InterpolationFontAgreesWithAsWritten | HXPageViewController/HXPageViewController/HXPageViewController/HXPageTabBarItem.swift:33-39 | the correction only differs from the source at full progress between two faces |
| TabBarItem.BlendFont | HXPageViewController/HXPageViewController/HXPageViewController/HXPageTabBarItem.swift:33-39 | either blend gives the blended size and `fromFont` at progress <= 0; at >= 1 it is `toFont` for the intended blend or one shared face, and the from-face at the target size as written |
| TabBarItem.InterpolationColor | HXPageViewController/HXPageViewController/HXPageViewController/HXPageTabBarItem.swift:48-67 | each RGBA channel is the blend of its own two channels: `fromColor` at <= 0, `toColor` at >= 1, each channel between its ends |
| TabBarItem.InterpolationColorSameProgress | HXPageViewController/HXPageViewController/HXPageViewController/HXPageTabBarItem.swift:48-67 | inside [0, 1] all four channels move the same fraction of their way |
| TabBarItem.ConfigItem | HXPageViewController/HXPageViewController/HXPageViewController/HXPageTabBarItem.swift:136-147 | the label shows the title; it shows the highlighted font and colour if the model is selected, the normal ones otherwise |
| ContentView.TruncateToInt | HXPageViewController/HXPageViewController/HXPageViewController/HXPageContentView.swift:71 | `Int(x)` truncates toward zero: n <= x < n + 1 for x >= 0, n - 1 < x <= n for x < 0 |
| ContentView.PageOffsetIsProduct | HXPageViewController/HXPageViewController/HXPageViewController/HXPageContentView.swift:85 | the page offset is `CGFloat(index) * width` |
| ContentView.PageOffsetStep | HXPageViewController/HXPageViewController/HXPageViewController/HXPageContentView.swift:100 | the next page starts one width further on |
| ContentView.PageOffsetMonotone | HXPageViewController/HXPageViewController/HXPageViewController/HXPageContentView.swift:100 | a later page starts at least one width after an earlier one |
| ContentView.PageOffsetNonNegative | HXPageViewController/HXPageViewController/HXPageViewController/HXPageContentView.swift:85-88 | pages with a non-negative index start at a non-negative offset |
| ContentView.PageOffsetRatio | HXPageViewController/HXPageViewController/HXPageViewController/HXPageContentView.swift:71 | dividing the start of page i by the width gives back i |
| ContentView.ScaleBracket | HXPageViewController/HXPageViewController/HXPageViewController/HXPageContentView.swift:71 | a ratio bracketed by i and i + 1 puts the offset inside page i's span |
| ContentView.CalculateIndex | HXPageViewController/HXPageViewController/HXPageViewController/HXPageContentView.swift:66-76 | the default argument -1 means the current offset; the index is never negative; a non-negative offset lies in the span of the page it returns; offsets below one width give page 0 |
| ContentView.CalculateContentOffset | HXPageViewController/HXPageViewController/HXPageViewController/HXPageContentView.swift:82-93 | y is 0; x is the page offset clamped below at 0 and, when the content width is positive, above at contentWidth - width (the upper clamp winning, also when the content is narrower than one page); each case is stated |
| ContentView.CalculateVisibleFrame | HXPageViewController/HXPageViewController/HXPageViewController/HXPageContentView.swift:99-102 | the frame of page i starts at its page offset and has the bounds' size |
| ContentView.SetContentOffset | HXPageViewController/HXPageViewController/HXPageViewController/HXPageContentView.swift:47-55 | with a callback the view stays put and the callback gets `CalculateIndex` of p.x (the page under p.x when p.x >= 0) and the animation flag; without one the offset is set |
| ContentView.OnlyPageSpanHoldsStart | HXPageViewController/HXPageViewController/HXPageViewController/HXPageContentView.swift:66-76 | only page i's span holds the start of page i |
| ContentView.IndexAtPageStart | HXPageViewController/HXPageViewController/HXPageViewController/HXPageContentView.swift:66-76 | a view resting at the start of page i reports page i |
| ContentView.IndexOfPageOffset | HXPageViewController/HXPageViewController/HXPageViewController/HXPageContentView.swift:66-93 | round trip: with content of `count` pages and 0 <= i < count, the offset of page i is not clamped and maps back to i |
| ContentView.RestingOnPage | HXPageViewController/HXPageViewController/HXPageViewController/HXPageContainer.swift:227-231 | a view laid out with `count` pages and put on page i, as relayout does, rests at page i's offset and reports page i |
| ContentView.PageFramesDisjoint | HXPageViewController/HXPageViewController/HXPageViewController/HXPageContentView.swift:99-102 | frames of two different pages do not overlap |
| ContentView.PageFrameAtPageOffset | HXPageViewController/HXPageViewController/HXPageViewController/HXPageContentView.swift:82-102 | a page in range is laid out exactly where the view scrolls to show it |
| PageContainer.ClampDefault | HXPageViewController/HXPageViewController/HXPageViewController/HXPageContainer.swift:100 | `min(max(0, d), count - 1)`: an index in range stays; below goes to 0, above to count - 1; with no pages the result is -1 |
| PageContainer.Lookup | HXPageViewController/HXPageViewController/HXPageViewController/HXPageContainer.swift:262-272 | nothing exactly outside [0, count); otherwise the cached controller, or the data source's page when none is cached |
| PageContainer.CachingKeepsLookups | HXPageViewController/HXPageViewController/HXPageViewController/HXPageContainer.swift:281-302 | caching the controller a lookup returns, under its own index, changes no lookup at any index |
| PageContainer.KeyOf | HXPageViewController/HXPageViewController/HXPageViewController/HXPageContainer.swift:309 | every cached controller is stored under some key |
| PageContainer.CachedAfterAdd | HXPageViewController/HXPageViewController/HXPageViewController/HXPageContainer.swift:297-300 | caching a new controller under a free key adds exactly it and keeps one key per controller |
| PageContainer.CachedAfterRemove | HXPageViewController/HXPageViewController/HXPageViewController/HXPageContainer.swift:319-320 | removing one entry removes exactly its controller and keeps one key per controller |
| PageContainer.Kept | HXPageViewController/HXPageViewController/HXPageViewController/HXPageContainer.swift:307-322 | survivors keep their controller; `.all` keeps none; `.exceptCurrentIndex` keeps only currentIndex, and only if it is < count; `.notReload` keeps exactly the keys < count |
| PageContainer.UnvisitedStep | HXPageViewController/HXPageViewController/HXPageViewController/HXPageContainer.swift:309-321 | one loop step drops the visited key exactly when the reload type does not keep it |
| PageContainer.Rest | HXPageViewController/HXPageViewController/HXPageViewController/HXPageContainer.swift:372-373 | endAppearanceTransition leaves a page settled where its transition was heading; a settled page stays |
| PageContainer.EndSettlesPair | HXPageViewController/HXPageViewController/HXPageViewController/HXPageContainer.swift:368-385 | after endTransition both pages are settled on both branches; a cancel puts them back; no other page is touched; all-settled is preserved |
| PageContainer.BeginThenCommit | HXPageViewController/HXPageViewController/HXPageViewController/HXPageContainer.swift:353-376 | begin then commit: the new page ends visible, the old one invisible, other pages untouched, all-settled preserved |
| PageContainer.BeginThenCancel | HXPageViewController/HXPageViewController/HXPageViewController/HXPageContainer.swift:353-384 | begin then cancel: the old page ends visible, the new one invisible, as if nothing had started |
| PageContainer.Container.constructor | HXPageViewController/HXPageViewController/HXPageViewController/HXPageContainer.swift:109-136 | the stored properties' initial values: no data source, view not loaded, indices 0, potentialIndex -999, no drag, empty cache, no children, nothing logged |
| PageContainer.Container.BeginAppearanceTransition | HXPageViewController/HXPageViewController/HXPageViewController/HXPageContainer.swift:357-358 | the child is now in a transition towards (or away from) visible; no other page changes |
| PageContainer.Container.EndAppearanceTransition | HXPageViewController/HXPageViewController/HXPageViewController/HXPageContainer.swift:372-373 | the child comes to rest; no other page changes |
| PageContainer.Container.SetDataSource | HXPageViewController/HXPageViewController/HXPageViewController/HXPageContainer.swift:97-103 | a default index becomes the current index, clamped into the pages; without one the index is unchanged |
| PageContainer.Container.AddChildViewController | HXPageViewController/HXPageViewController/HXPageViewController/HXPageContainer.swift:281-302 | returns the page lookup's answer; an existing child changes nothing (so a second call returns the same controller and leaves the cache alone); a new one is cached under the index, becomes a child and, with the flag, ends visible; lookups are unchanged |
| PageContainer.Container.RemoveChildViewController | HXPageViewController/HXPageViewController/HXPageViewController/HXPageContainer.swift:327-331 | the controller stops being a child |
| PageContainer.Container.ClearCaches | HXPageViewController/HXPageViewController/HXPageViewController/HXPageContainer.swift:307-322 | the cache becomes `Kept` of the old cache for the reload type; the children stay exactly the cached controllers |
| PageContainer.Container.ResetCurrentState | HXPageViewController/HXPageViewController/HXPageViewController/HXPageContainer.swift:243-249 | no drag in progress; lastIndex is the old current index; lastOffsetX is the offset; the current index is the page under the offset |
| PageContainer.Container.BeginTransition | HXPageViewController/HXPageViewController/HXPageViewController/HXPageContainer.swift:353-361 | an out-of-range target changes neither cache nor log; a target page that is not yet a child is cached under toIndex and becomes a child, one that is stays as it is; when both pages exist the old one starts disappearing, the new one appearing, and willTransition is logged |
| PageContainer.Container.EndTransition | HXPageViewController/HXPageViewController/HXPageViewController/HXPageContainer.swift:368-385 | both pages end settled; the log gains didFinish + didSelect(currentIndex) iff potentialIndex == currentIndex, and only didCancel otherwise; nothing happens when either page is missing |
| PageContainer.Container.BeginUpdate | HXPageViewController/HXPageViewController/HXPageViewController/HXPageContainer.swift:334-340 | when currentIndex == potentialIndex the cache and log are unchanged; otherwise a transition from the current page towards potentialIndex begins |
| PageContainer.Container.EndUpdate | HXPageViewController/HXPageViewController/HXPageViewController/HXPageContainer.swift:343-346 | the state is reset to the page under the offset, then the transition from the old current page is ended, committed exactly when potentialIndex is now current |
| PageContainer.Container.CustomScrollAnimation | HXPageViewController/HXPageViewController/HXPageViewController/HXPageContainer.swift:392-412 | without a source page nothing happens; otherwise the view ends on the target page's offset, the update is ended, and the target page is current |
| PageContainer.Container.MoveOntoPotentialPage | HXPageViewController/HXPageViewController/HXPageViewController/HXPageContainer.swift:437-443 | the view is put on page potentialIndex, directly or by the custom animation, and the update is ended with potentialIndex current |
| PageContainer.Container.JumpTo | HXPageViewController/HXPageViewController/HXPageViewController/HXPageContainer.swift:435-443 | the jump: the new index becomes current, the old one last; the log is exactly willTransition, didFinish, didSelect(index); the new page ends visible, the old one invisible |
| PageContainer.Container.SetCurrentIndex | HXPageViewController/HXPageViewController/HXPageViewController/HXPageContainer.swift:425-444 | before the view loads only the index is recorded; an index < 0, >= count or equal to currentIndex changes no state and no log; otherwise the jump above |
| PageContainer.Container.TurnTowards | HXPageViewController/HXPageViewController/HXPageViewController/HXPageContainer.swift:461-479 | unless a transition towards the target is already under way, one still heading the opposite way is ended (cancelled) first, then one towards the target begins |
| PageContainer.Container.ScrollViewDidScroll | HXPageViewController/HXPageViewController/HXPageViewController/HXPageContainer.swift:451-481 | not dragging: nothing; dragging: the progress is logged; a forward tick makes currentIndex + 1 potential and a backward tick currentIndex - 1; a reversal logs the cancellation of the old pair right after the progress |
| PageContainer.Container.ScrollViewDidEndDecelerating | HXPageViewController/HXPageViewController/HXPageViewController/HXPageContainer.swift:483-487 | the update is ended only if a drag started a transition |
| PageContainer.Container.ScrollViewDidEndScrollingAnimation | HXPageViewController/HXPageViewController/HXPageViewController/HXPageContainer.swift:489-491 | the update is ended |
| PageContainer.Container.RelayoutScrollView | HXPageViewController/HXPageViewController/HXPageViewController/HXPageContainer.swift:222-240 | the content view takes the view's bounds and count pages of content; unless dragged it is put on the current page, so a page in range stays current; then the state is reset |
| PageContainer.Container.ReloadChildViewControllers | HXPageViewController/HXPageViewController/HXPageViewController/HXPageContainer.swift:213-219 | on a loaded view: relayout; the current page, if it exists, is then a child: cached and, with the flag, shown exactly when it was not a child before; otherwise cache, children and appearances are unchanged |
| PageContainer.Container.ReloadData | HXPageViewController/HXPageViewController/HXPageViewController/HXPageContainer.swift:419-422 | the cache is cleared as the reload type says; on a loaded view the current page is then laid out and, exactly when no surviving cache entry holds it, cached and taken to visible; the delegate hears nothing |
| PageContainer.Container.ViewDidLoad | HXPageViewController/HXPageViewController/HXPageViewController/HXPageContainer.swift:145-149 | the view is loaded and laid out; the current page becomes a child, cached exactly when it was not one; no appearance calls |
| PageContainer.Container.ViewDidLayoutSubviews | HXPageViewController/HXPageViewController/HXPageViewController/HXPageContainer.swift:181-185 | the new bounds are taken and the content view relaid out |
| PageContainer.Container.DidReceiveMemoryWarning | HXPageViewController/HXPageViewController/HXPageViewController/HXPageContainer.swift:188-192 | every cached page but the current one is dropped |
| PageContainer.Container.ViewWillAppear | HXPageViewController/HXPageViewController/HXPageViewController/HXPageContainer.swift:161-164 | the current page starts appearing |
| PageContainer.Container.ViewDidAppear | HXPageViewController/HXPageViewController/HXPageViewController/HXPageContainer.swift:166-169 | the current page comes to rest, visible after an appearing transition |
| PageContainer.Container.ViewWillDisappear | HXPageViewController/HXPageViewController/HXPageViewController/HXPageContainer.swift:171-174 | the current page starts disappearing |
| PageContainer.Container.ViewDidDisappear | HXPageViewController/HXPageViewController/HXPageViewController/HXPageContainer.swift:176-179 | the current page comes to rest, invisible after a disappearing transition |
| PageContainer.Container.ContentViewSetContentOffset | HXPageViewController/HXPageViewController/HXPageViewController/HXPageContainer.swift:200-207 | once the callback is installed, a requested offset does not move the view; the container jumps to the page under it unless that page is missing or current, in which case no field changes (drag state, cache, children, appearances and log included) |
| PageTabBar.NoSourceDefaults | HXPageViewController/HXPageViewController/HXPageViewController/HXPageTabBar.swift:238-357 | the defaults without a data source: no items, system font 15 for both fonts, light gray and black, spacing 20, relayout and indicator on, indicator colour = highlighted colour, height 3, bottom 5, no animation |
| PageTabBar.NoSourceRow | HXPageViewController/HXPageViewController/HXPageViewController/HXPageTabBar.swift:381-408 | a refresh without a data source builds no item models; the one spacing stretches to the bounds width when that exceeds 20 and stays 20 otherwise, and the row is exactly that one spacing wide |
| PageTabBar.WidthForItem | HXPageViewController/HXPageViewController/HXPageViewController/HXPageTabBar.swift:285-307 | an explicit width wins unless it is -1; otherwise 0 without a data source, else the title measured in the given font or, with none, in the highlighted font for the selected item and the normal font for the rest |
| PageTabBar.WidthForIndicator | HXPageViewController/HXPageViewController/HXPageViewController/HXPageTabBar.swift:269-277 | an explicit indicator width wins unless it is -1; otherwise the item's width |
| PageTabBar.ItemModelAt | HXPageViewController/HXPageViewController/HXPageViewController/HXPageTabBar.swift:459-484 | selected iff the index is the selection; the selected item blends its highlighted font and colour from the normal ones, the others their normal ones from the highlighted ones; the width is measured in the blended font; the font blend is a parameter, `AsWritten` being the source's |
| PageTabBar.SmoothTransitionEnds | HXPageViewController/HXPageViewController/HXPageViewController/HXPageTabBar.swift:497-503 | at full progress the two cells have traded colours; their fonts trade with the intended blend or one shared face, and as written each keeps the other font's face at its size; at progress 0 both fonts and colours are exact |
| PageTabBar.RestingModels | HXPageViewController/HXPageViewController/HXPageViewController/HXPageTabBar.swift:402-408 | one resting model (percent 1) per item, in order |
| PageTabBar.RestingModelsMarkSelection | HXPageViewController/HXPageViewController/HXPageViewController/HXPageTabBar.swift:402-408 | exactly the selected item is marked |
| PageTabBar.RepeatedIsProduct | HXPageViewController/HXPageViewController/HXPageViewController/HXPageTabBar.swift:390-394 | n spacings added up make n times the spacing |
| PageTabBar.AdvanceSplits | HXPageViewController/HXPageViewController/HXPageViewController/HXPageTabBar.swift:439-451 | the advance over k items is their widths plus k spacings |
| PageTabBar.FramesOneSpacingApart | HXPageViewController/HXPageViewController/HXPageViewController/HXPageTabBar.swift:439-451 | consecutive frames are one spacing apart, so with a non-negative spacing they do not overlap |
| PageTabBar.LastFrameEndsRow | HXPageViewController/HXPageViewController/HXPageViewController/HXPageTabBar.swift:403-408 | the row's width is one spacing past the last frame |
| PageTabBar.FrameOffsetIsPrefixSum | HXPageViewController/HXPageViewController/HXPageViewController/HXPageTabBar.swift:439-451 | frame x of item k == spacing + sum of the first k widths + k spacings |
| PageTabBar.SpacingFor | HXPageViewController/HXPageViewController/HXPageViewController/HXPageTabBar.swift:382-400 | when items plus count + 1 spacings fall short of the bounds and relayout is on, the new spacing times count + 1 is the width left by the items, and it exceeds the old spacing; otherwise the data source's spacing or 20 |
| PageTabBar.RestingWidthsAreMeasured | HXPageViewController/HXPageViewController/HXPageViewController/HXPageTabBar.swift:467-481 | with the intended blend, or with one shared title face, each resting model is as wide as its item was measured for the spacing |
| PageTabBar.AgreeingTotals | HXPageViewController/HXPageViewController/HXPageViewController/HXPageTabBar.swift:389-408 | models whose widths agree with the measurements item by item add up to the measured total |
| PageTabBar.RedistributionFillsBounds | HXPageViewController/HXPageViewController/HXPageViewController/HXPageTabBar.swift:389-408 | after a redistribution the row's content width spacing + sum(w + spacing) equals the bounds width exactly, for the intended blend or as written with one shared title face |
| PageTabBar.AsWrittenRowMissesBounds | HXPageViewController/HXPageViewController/HXPageViewController/HXPageTabBar.swift:382-408 | one tab with a thin 15 and a bold 20 face, in bounds 200: the spacing becomes 80; the as-written row is 180 wide, the intended one 200 |
| PageTabBar.CenteringOffset | HXPageViewController/HXPageViewController/HXPageViewController/HXPageTabBar.swift:422-424 | the row's offset is >= 0 and <= the scrollable width, and it centres the selected frame whenever that is possible |
| PageTabBar.IndicatorUnder | HXPageViewController/HXPageViewController/HXPageViewController/HXPageTabBar.swift:411-420 | the indicator is centred under the selected frame; it has the indicator width, height and colour; its bottom is `bottom` above the bar's bottom |
| PageTabBar.IndicatorSliding | HXPageViewController/HXPageViewController/HXPageViewController/HXPageTabBar.swift:505-514 | centre and width lie between the two items' centres and widths; they equal the from-item's at <= 0 and the to-item's at >= 1; the rest is untouched |
| PageTabBar.SlideEndsUnderSelection | HXPageViewController/HXPageViewController/HXPageViewController/HXPageTabBar.swift:505-514 | a completed slide leaves the indicator where a refresh puts it |
| PageTabBar.Reselect | HXPageViewController/HXPageViewController/HXPageViewController/HXPageTabBar.swift:589-596 | the old model is unmarked, the new one marked, every other model unchanged |
| PageTabBar.ReselectMovesMark | HXPageViewController/HXPageViewController/HXPageViewController/HXPageTabBar.swift:589-596 | if exactly the old selection was marked, exactly the new one is |
| PageTabBar.SelectionReportedOnce | HXPageViewController/HXPageViewController/HXPageViewController/HXPageTabBar.swift:610-617 | a real selection logs didSelectedItemAt exactly once, last; it asks the linked view to move iff the flag is set and a linked view exists |
| PageTabBar.Observe | HXPageViewController/HXPageViewController/HXPageViewController/HXPageTabBar.swift:521-571 | a tick is skipped iff the ratio is outside [0, count - 1] or the view rests at either edge with that edge selected |
| PageTabBar.ObserveTick | HXPageViewController/HXPageViewController/HXPageViewController/HXPageTabBar.swift:557-569 | a selected page exists; nothing is reported iff the tick repeats; the report is (current, current + 1, remainder) from the page under the offset and (selection, current, 1 - remainder) otherwise, with percent in [0, 1) |
| PageTabBar.ObserveCommitsWholePage | HXPageViewController/HXPageViewController/HXPageViewController/HXPageTabBar.swift:544-549 | a zero remainder commits the page under the offset unless the tick repeats |
| PageTabBar.ObserveFlickCommits | HXPageViewController/HXPageViewController/HXPageViewController/HXPageTabBar.swift:550-556 | more than a page from the selection, off a page boundary, commits floor(ratio), or floor(ratio) + 1 when the ratio is below the selection |
| PageTabBar.RestingOnPageSelectsTab | HXPageViewController/HXPageViewController/HXPageViewController/HXPageTabBar.swift:521-571 | coming to rest on page k of the linked view selects tab k |
| PageTabBar.TabBar.constructor | HXPageViewController/HXPageViewController/HXPageViewController/HXPageTabBar.swift:176-189 | initial state: selection 0, no models, spacing 10, no indicator, nothing logged |
| PageTabBar.TabBar.ItemFrame | HXPageViewController/HXPageViewController/HXPageViewController/HXPageTabBar.swift:439-451 | the loop computes `ItemFrameOf` of the current models and spacing |
| PageTabBar.TabBar.ComputeItemSpacing | HXPageViewController/HXPageViewController/HXPageViewController/HXPageTabBar.swift:382-400 | the loop leaves the spacing equal to `SpacingFor` |
| PageTabBar.TabBar.RebuildItemModels | HXPageViewController/HXPageViewController/HXPageViewController/HXPageTabBar.swift:402-408 | the models become the resting models and the accumulated width is the row's extent |
| PageTabBar.TabBar.LayoutSelection | HXPageViewController/HXPageViewController/HXPageViewController/HXPageTabBar.swift:409-431 | the indicator goes under the selection if one is wanted; the row is centred on it; the linked view is asked (not animated) for the selected page's offset |
| PageTabBar.TabBar.RefreshCurrentState | HXPageViewController/HXPageViewController/HXPageViewController/HXPageTabBar.swift:381-434 | spacing, models (as written) and selection layout as above; exactly the selected item is marked; when the two title fonts share a face, a redistributed row fills the bounds |
| PageTabBar.TabBar.SetDataSource | HXPageViewController/HXPageViewController/HXPageViewController/HXPageTabBar.swift:167-174 | a default index becomes the selection, clamped with `min(max(0, d), count - 1)`; then a refresh |
| PageTabBar.TabBar.ReloadData | HXPageViewController/HXPageViewController/HXPageViewController/HXPageTabBar.swift:635-637 | a refresh |
| PageTabBar.TabBar.LayoutSubviews | HXPageViewController/HXPageViewController/HXPageViewController/HXPageTabBar.swift:226-230 | the new bounds, then a refresh |
| PageTabBar.TabBar.SetContentScrollView | HXPageViewController/HXPageViewController/HXPageViewController/HXPageTabBar.swift:155-161 | the linked view is recorded |
| PageTabBar.TabBar.SelectedItem | HXPageViewController/HXPageViewController/HXPageViewController/HXPageTabBar.swift:578-618 | an index out of [0, count), or the selection itself, changes nothing and logs nothing; otherwise the selection moves, two models trade their mark, the indicator moves under the new item, and `SelectionEvents` is logged; a single mark is preserved |
| PageTabBar.TabBar.SetSelectedIndex | HXPageViewController/HXPageViewController/HXPageViewController/HXPageTabBar.swift:630-632 | as selectedItem |
| PageTabBar.TabBar.TapItem | HXPageViewController/HXPageViewController/HXPageViewController/HXPageTabBar.swift:654-656 | a tap selects with the linked view following |
| PageTabBar.TabBar.RefreshItemState | HXPageViewController/HXPageViewController/HXPageViewController/HXPageTabBar.swift:492-516 | with both indices in range and both cells on screen the indicator slides between the two frames and widths; otherwise nothing changes |
| PageTabBar.TabBar.ContentScrollViewDidChange | HXPageViewController/HXPageViewController/HXPageViewController/HXPageTabBar.swift:521-571 | carries out `Observe`: skipped ticks change nothing; otherwise the selection it names is made without moving the linked view, the indicator slides, and didScrollItem is logged from the new selection |
| PageTabBar.TabBar.SelectOnTick | HXPageViewController/HXPageViewController/HXPageViewController/HXPageTabBar.swift:544-556 | the selection step of a tick is selectedItem on the page the tick commits, or nothing |
| PageTabBar.TabBar.ReportOnTick | HXPageViewController/HXPageViewController/HXPageViewController/HXPageTabBar.swift:557-569 | unless ignored, the indicator slides by the report and didScrollItem is logged |
| PageTabBar.TabBar.ObserveContentOffset | HXPageViewController/HXPageViewController/HXPageViewController/HXPageTabBar.swift:367-377 | a tick is handled only when the offset changed while the linked view is dragged or decelerating; otherwise nothing changes; with a linked view the new offset is remembered |

## Left out

- UIKit rendering is not modelled: subviews, cells, `sizeToFit`, the collection view's `reloadData`, `scrollToItem` and `invalidateLayout`, and the indicator's corner radius.
- `relayoutScrollView` also resets each cached child's frame in a loop. That loop only places views and is not modelled.
- The KVO registration in `setupContentScrollObserver` is not modelled, nor is the `observationInfo = nil` workaround in `deinit`. The observer closure is the method `ObserveContentOffset`.
- `UIView.animate` timing is not modelled. The custom scroll animation is its end state, with the completion block calling `endUpdateChildViewControllers`. The indicator's 0.2 s animation is its end frame.
- In UIKit, a programmatic `contentOffset` assignment re-enters `scrollViewDidScroll`. That call returns at once unless the user is dragging, so it is not modelled.
- Text measurement (`stringWidth`) is a foreign call. It is the `measure` function of the tab bar's data source. Fonts are a face descriptor and a size; colours are four reals.
- Floating-point rounding is not modelled. Offsets, widths and ratios are exact reals, and equality tests are exact.
- `HXPageViewController.swift` (the facade) and the demo view controllers are not part of this model.
- The delegates are assumed to be present. Their callbacks are appended to a log.
- Only horizontal offsets are modelled. The vertical component is always 0.
- The data sources are values. They are taken to give the same answers between two reloads.
- A bounds width of 0 is left out. `Int(x / 0)` traps on the NaN, so the content view's width is taken positive (`ContentView.Positive`).
- The tab bar's item titles are one sequence. A title index outside it reads as "".
- The tab bar asks its linked scroll view to take an offset. Only the request is logged (`ContentOffsetRequested`); what that view then does is not modelled.
- The layout pass `refreshCurrentState` forces on a linked view with a zero frame is not modelled.
- `refreshItemState` re-renders the two cells for the smooth transition. That is display only; `SmoothTransitionEnds` states what those cells show.
- PageTabBar.TabBar.SelectedItem: requires that the old selection and the new index are item models, whenever the call is a real selection. The source indexes `itemModels` there and traps otherwise. That happens when a data source with fewer items keeps a stale `selectedIndex`.
- PageTabBar.TabBar.ContentScrollViewDidChange: carries the same requirement for the item the tick selects.
- PageTabBar.TabBar.RefreshCurrentState: promises that a redistributed row fills the bounds only when the two title fonts share a face. With two faces the source's row need not fill them (`AsWrittenRowMissesBounds`).
- ContentView.TruncateToInt: is unbounded. Swift's `Int(x)` traps when x lies outside the range of `Int`; that trap is not modelled.

Quirks the model keeps as the source has them:

- After a cancelled drag `potentialIndex` stays stale, so the next drag the other way ends the old pair a second time.
- The tab bar measures each resting model in its as-written font, so with two title faces the models' widths differ from the ones the spacing was computed for.

## Findings

| source | as written | input that shows it | evidently intended | confidence | as-written member | corrected member |
|---|---|---|---|---|---|---|
| HXPageViewController/HXPageViewController/HXPageViewController/HXPageTabBarItem.swift:33-39 | `interpolationFont` returns the from-font's descriptor at the blended size for every progress | normal font thin 15 and highlighted font bold 20 (as in DemoTabBarViewController.swift:90-96), percent 1: the selected tab's model font is thin 20, not bold 20, and every other tab's is bold 15. `itemModel` then measures widths in these fonts, unlike the spacing pass, so a redistributed row no longer fills the bounds | at full progress the blend is the target font, as `interpolationValue` and `interpolationColor` give their target | medium, not executed | TabBarItem.InterpolationFontAsWritten, TabBarItem.AsWrittenMissesTarget, PageTabBar.AsWrittenRowMissesBounds | TabBarItem.InterpolationFont, PageTabBar.RedistributionFillsBounds |

The tab bar class keeps the source's blend. The intended blend is modelled next to it: `ItemModelAt(..., Intended)`. `RedistributionFillsBounds` proves that this blend fills the bounds for any fonts.
