/**
 * HXPageContainer.swift: the container that pages child view controllers in
 * a horizontal HXPageContentView, keeps a cache of the pages it has added,
 * forwards appearance transitions to them by hand and reports transitions
 * to its delegate.
 *
 * Child view controllers are integer identities.  What a controller has
 * been told about its appearance is kept per controller (`appearance`), and
 * every delegate callback is appended to an event log (`events`).  The class
 * `Container` holds the Swift class's stored state in fields; its methods
 * update them the way the Swift methods do.  The effects those methods have
 * on the appearance map and on the log are named by the functions of this
 * module, and the lemmas below say what those effects mean.
 */
module PageContainer {
  import opened Wrappers
  import opened Numerics
  import CV = ContentView

  type Controller = int

  /** What a child has been told: a transition it is in (`Pending`) or where it rests. */
  datatype Appearance = Settled(visible: bool) | Pending(appearing: bool)

  /** The callbacks of HXPageContainerDelegate, in the order they are made. */
  datatype Event =
    | WillTransition(from: Controller, to: Controller)
    | DidFinishTransition(from: Controller, to: Controller)
    | DidCancelTransition(from: Controller, to: Controller)
    | Dragging(fromIndex: int, toIndex: int, percent: real)
    | DidSelect(index: int)

  /** HXpageContainerReloadType. */
  datatype ReloadType = All | ExceptCurrentIndex | NotReload

  /**
   * What the data source answers: the page at each index (so the number of
   * pages is |pages|) and the optional defaultCurrentIndex.
   */
  datatype PageSource = PageSource(pages: seq<Controller>, defaultIndex: Option<int>)

  /** The value of the `potentialIndex` field before any transition has been started. */
  const NoPotentialIndex: int := -999


  /** numberOfChildViewControllers: the data source's count, 0 without a data source. */
  function CountOf(source: Option<PageSource>): nat {
    match source
    case None => 0
    case Some(src) => |src.pages|
  }

  /**
   * The clamp the `dataSource` observer applies to defaultCurrentIndex:
   * `min(max(0, d), count - 1)`.  With pages it lands on one of them; with
   * none it is -1.
   */
  function ClampDefault(d: int, count: nat): (index: int)
    ensures count > 0 ==> 0 <= index < count
    ensures 0 <= d < count ==> index == d
    ensures count > 0 && d < 0 ==> index == 0
    ensures count > 0 && d >= count ==> index == count - 1
    ensures count == 0 ==> index == -1
  {
    var low := if d < 0 then 0 else d;
    if low < count - 1 then low else count - 1
  }

  /**
   * childViewController(at:): nothing outside [0, count); otherwise the
   * cached controller, and only when there is none the data source's page.
   */
  function Lookup(source: Option<PageSource>, cache: map<int, Controller>, index: int): (c: Option<Controller>)
    ensures c.None? <==> index < 0 || index >= CountOf(source)
    ensures c.Some? && index in cache ==> c.value == cache[index]
    ensures c.Some? && index !in cache ==> c.value == source.value.pages[index]
  {
    if index < 0 || index >= CountOf(source) then None
    else if index in cache then Some(cache[index])
    else Some(source.value.pages[index])
  }

  /** Caching the controller a lookup returns, under its own index, changes no lookup. */
  lemma CachingKeepsLookups(source: Option<PageSource>, cache: map<int, Controller>, index: int)
    requires Lookup(source, cache, index).Some?
    ensures var c := Lookup(source, cache, index).value;
      forall j :: Lookup(source, cache[index := c], j) == Lookup(source, cache, j)
  {
    var c := Lookup(source, cache, index).value;
    forall j ensures Lookup(source, cache[index := c], j) == Lookup(source, cache, j) {
      if j == index {
        assert Lookup(source, cache[index := c], j) == Some(c);
      }
    }
  }

  /** No controller is cached under two indices. */
  ghost predicate CacheInjective(cache: map<int, Controller>) {
    forall i, j :: i in cache && j in cache && i != j ==> cache[i] != cache[j]
  }

  /** The controllers in the cache. */
  function Cached(cache: map<int, Controller>): set<Controller> {
    set k | k in cache :: cache[k]
  }

  /** A key under which a cached controller is stored. */
  lemma KeyOf(cache: map<int, Controller>, c: Controller) returns (k: int)
    requires c in Cached(cache)
    ensures k in cache && cache[k] == c
  {
    k :| k in cache && cache[k] == c;
  }

  /** Caching a controller that is not cached yet, under a free key, adds exactly it. */
  lemma CachedAfterAdd(cache: map<int, Controller>, index: int, c: Controller)
    requires index !in cache && c !in Cached(cache) && CacheInjective(cache)
    ensures Cached(cache[index := c]) == Cached(cache) + {c}
    ensures CacheInjective(cache[index := c])
  {
    var m := cache[index := c];
    forall v | v in Cached(m) ensures v in Cached(cache) + {c} {
      var k := KeyOf(m, v);
      if k != index { assert cache[k] == v; }
    }
    forall v | v in Cached(cache) ensures v in Cached(m) {
      var k := KeyOf(cache, v);
      assert m[k] == v;
    }
    assert m[index] == c;
  }

  /** Removing one entry of an injective cache removes exactly its controller. */
  lemma CachedAfterRemove(cache: map<int, Controller>, index: int)
    requires index in cache && CacheInjective(cache)
    ensures Cached(cache - {index}) == Cached(cache) - {cache[index]}
    ensures CacheInjective(cache - {index})
  {
    var m := cache - {index};
    forall v | v in Cached(cache) - {cache[index]} ensures v in Cached(m) {
      var k := KeyOf(cache, v);
      assert m[k] == v;
    }
    forall v | v in Cached(m) ensures v in Cached(cache) - {cache[index]} {
      var k := KeyOf(m, v);
      assert cache[k] == v;
    }
  }

  /** The keys clearCaches(_:) keeps under each reload type. */
  function KeepsKey(mode: ReloadType, index: int, currentIndex: int, count: int): bool {
    match mode
    case ExceptCurrentIndex => index == currentIndex && index < count
    case NotReload => index < count
    case All => false
  }

  /** What clearCaches(_:) leaves of the cache. */
  function Kept(cache: map<int, Controller>, mode: ReloadType, currentIndex: int, count: int): (kept: map<int, Controller>)
    ensures forall k :: k in kept ==> k in cache && kept[k] == cache[k]
    ensures mode == All ==> kept == map[]
    ensures mode == ExceptCurrentIndex ==>
      kept.Keys == if currentIndex in cache && currentIndex < count then {currentIndex} else {}
    ensures mode == NotReload ==> forall k :: k in kept <==> k in cache && k < count
  {
    map k | k in cache && KeepsKey(mode, k, currentIndex, count) :: cache[k]
  }

  /** The cache while clearCaches(_:) runs: entries not yet visited are all still there. */
  function Unvisited(original: map<int, Controller>, entries: set<(int, Controller)>, mode: ReloadType, currentIndex: int, count: int): map<int, Controller> {
    map k | k in original && ((k, original[k]) in entries || KeepsKey(mode, k, currentIndex, count)) :: original[k]
  }

  /** Visiting one entry drops its key exactly when the reload type does not keep it. */
  lemma UnvisitedStep(original: map<int, Controller>, entries: set<(int, Controller)>, entry: (int, Controller), mode: ReloadType, currentIndex: int, count: int)
    requires entry in entries && entries <= original.Items
    ensures entry.0 in original && original[entry.0] == entry.1
    ensures var before := Unvisited(original, entries, mode, currentIndex, count);
      Unvisited(original, entries - {entry}, mode, currentIndex, count) ==
        if KeepsKey(mode, entry.0, currentIndex, count) then before else before - {entry.0}
  {
    assert entry in original.Items;
  }

  /** A pending transition comes to rest where it was heading; a resting page stays. */
  function Rest(a: Appearance): (r: Appearance)
    ensures r.Settled?
    ensures a.Settled? ==> r == a
    ensures a.Pending? ==> r.visible == a.appearing
  {
    match a
    case Pending(appearing) => Settled(appearing)
    case Settled(_) => a
  }

  /** A controller nothing has been said to yet rests invisible. */
  function AppearanceIn(app: map<Controller, Appearance>, c: Controller): Appearance {
    if c in app then app[c] else Settled(false)
  }

  /** Every page rests: no appearance transition is half done. */
  ghost predicate AllSettled(app: map<Controller, Appearance>) {
    forall c :: c in app ==> app[c].Settled?
  }

  /** Effect of beginTransitionChildViewController on two pages: `o` starts disappearing, `n` appearing. */
  function Begun(app: map<Controller, Appearance>, o: Controller, n: Controller): map<Controller, Appearance> {
    app[o := Pending(false)][n := Pending(true)]
  }

  /** Effect of the committed branch of endTransitionChildViewController: both pages come to rest. */
  function Finished(app: map<Controller, Appearance>, o: Controller, n: Controller): map<Controller, Appearance> {
    app[o := Rest(AppearanceIn(app, o))][n := Rest(AppearanceIn(app, n))]
  }

  /** Effect of the cancelled branch: `o` is taken back to visible, `n` to invisible. */
  function Cancelled(app: map<Controller, Appearance>, o: Controller, n: Controller): map<Controller, Appearance> {
    app[o := Settled(true)][n := Settled(false)]
  }

  /** The appearance calls of beginTransitionChildViewController, when both pages exist. */
  function BeginAppearances(app: map<Controller, Appearance>, o: Option<Controller>, n: Option<Controller>): map<Controller, Appearance> {
    if o.Some? && n.Some? then Begun(app, o.value, n.value) else app
  }

  /** The delegate calls of beginTransitionChildViewController. */
  function BeginEvents(o: Option<Controller>, n: Option<Controller>): seq<Event> {
    if o.Some? && n.Some? then [WillTransition(o.value, n.value)] else []
  }

  /** The appearance calls of endTransitionChildViewController, when both pages exist. */
  function EndAppearances(app: map<Controller, Appearance>, o: Option<Controller>, n: Option<Controller>, committed: bool): map<Controller, Appearance> {
    if o.None? || n.None? then app
    else if committed then Finished(app, o.value, n.value)
    else Cancelled(app, o.value, n.value)
  }

  /** The delegate calls of endTransitionChildViewController; `index` is the current index reported on commit. */
  function EndEvents(o: Option<Controller>, n: Option<Controller>, committed: bool, index: int): seq<Event> {
    if o.None? || n.None? then []
    else if committed then [DidFinishTransition(o.value, n.value), DidSelect(index)]
    else [DidCancelTransition(o.value, n.value)]
  }

  /**
   * Ending a transition leaves neither of its pages half way, on both
   * branches, and touches no other page.
   */
  lemma EndSettlesPair(app: map<Controller, Appearance>, o: Controller, n: Controller, committed: bool)
    ensures var r := EndAppearances(app, Some(o), Some(n), committed);
      && AppearanceIn(r, o).Settled? && AppearanceIn(r, n).Settled?
      && (!committed ==> AppearanceIn(r, n) == Settled(false) && (o != n ==> AppearanceIn(r, o) == Settled(true)))
      && (forall d :: d != o && d != n ==> AppearanceIn(r, d) == AppearanceIn(app, d))
      && (AllSettled(app) ==> AllSettled(r))
  {
    var r := EndAppearances(app, Some(o), Some(n), committed);
    if committed {
      assert r == app[o := Rest(AppearanceIn(app, o))][n := Rest(AppearanceIn(app, n))];
      if o == n {
        assert AppearanceIn(r, o) == Rest(AppearanceIn(app, n));
      }
    }
  }

  /**
   * A transition begun and then committed: the new page ends visible, the
   * old one (when it is a different controller) invisible, and no other
   * page is touched.
   */
  lemma BeginThenCommit(app: map<Controller, Appearance>, o: Controller, n: Controller)
    ensures var r := Finished(Begun(app, o, n), o, n);
      && AppearanceIn(r, n) == Settled(true)
      && (o != n ==> AppearanceIn(r, o) == Settled(false))
      && (forall d :: d != o && d != n ==> AppearanceIn(r, d) == AppearanceIn(app, d))
      && (AllSettled(app) ==> AllSettled(r))
  {
    var b := Begun(app, o, n);
    assert AppearanceIn(b, n) == Pending(true);
    assert o != n ==> AppearanceIn(b, o) == Pending(false);
  }

  /**
   * A transition begun and then cancelled: the old page ends visible again
   * and the new one invisible, as if the transition had not started.
   */
  lemma BeginThenCancel(app: map<Controller, Appearance>, o: Controller, n: Controller)
    requires o != n
    ensures var r := Cancelled(Begun(app, o, n), o, n);
      && AppearanceIn(r, o) == Settled(true) && AppearanceIn(r, n) == Settled(false)
      && (forall d :: d != o && d != n ==> AppearanceIn(r, d) == AppearanceIn(app, d))
      && (AllSettled(app) ==> AllSettled(r))
  {
  }

  /**
   * HXPageContainer's stored state.  `source` is what the data source
   * delegate answers, `scroll` the content view, `children` the view
   * controller's children; the rest are the Swift class's own fields.
   */
  class Container {
    var source: Option<PageSource>
    var isViewLoaded: bool
    var viewWidth: CV.Positive             // view.bounds
    var viewHeight: real
    var scroll: CV.ScrollView
    var currentIndex: int
    var lastIndex: int
    var lastOffsetX: real
    var potentialIndex: int
    var hasProcessAppearance: bool
    var cache: map<int, Controller>        // cacheViewControllers
    var children: set<Controller>
    var appearance: map<Controller, Appearance>
    var events: seq<Event>

    /** The children are exactly the cached controllers, each cached once. */
    ghost predicate Valid()
      reads this`cache, this`children
    {
      children == Cached(cache) && CacheInjective(cache)
    }

    function Count(): nat
      reads this`source
    {
      CountOf(source)
    }

    function ChildAt(index: int): Option<Controller>
      reads this`source, this`cache
    {
      Lookup(source, cache, index)
    }

    function AppearanceOf(c: Controller): Appearance
      reads this`appearance
    {
      AppearanceIn(appearance, c)
    }

    /**
     * What addChildViewContoller(at: index, ...) does to the cache and the
     * children, measured from `cache0` and `children0`: a page that exists
     * is a child afterwards; it is cached under `index` and added as a child
     * exactly when it was not a child before, and otherwise nothing changes.
     */
    ghost predicate CachedOnto(cache0: map<int, Controller>, children0: set<Controller>, index: int)
      reads this`source, this`cache, this`children
    {
      var c := ChildAt(index);
      && (c.Some? ==> c.value in children)
      && (c.None? || c.value in children0 ==> cache == cache0 && children == children0)
      && (c.Some? && c.value !in children0 ==> cache == cache0[index := c.value] && children == children0 + {c.value})
    }

    /**
     * What addChildViewContoller(at: index, shouldForwardAppearance: flag)
     * does to the appearances, measured from `appearance0`: a page that is
     * new as a child is taken to visible when `flag` is set; nothing else changes.
     */
    ghost predicate ShownOnto(appearance0: map<Controller, Appearance>, children0: set<Controller>, index: int, flag: bool)
      reads this`source, this`cache, this`appearance
    {
      var c := ChildAt(index);
      appearance == if flag && c.Some? && c.value !in children0 then appearance0[c.value := Settled(true)] else appearance0
    }

    /** A container before its view is loaded, with no data source and a view of the given size. */
    constructor (width: CV.Positive, height: real)
      ensures Valid()
      ensures source == None && !isViewLoaded
      ensures viewWidth == width && viewHeight == height
      ensures scroll == CV.ScrollView(0.0, width, height, 0.0, false)
      ensures currentIndex == 0 && lastIndex == 0 && lastOffsetX == 0.0
      ensures potentialIndex == NoPotentialIndex && !hasProcessAppearance
      ensures cache == map[] && children == {} && appearance == map[] && events == []
    {
      source := None;
      isViewLoaded := false;
      viewWidth, viewHeight := width, height;
      scroll := CV.ScrollView(0.0, width, height, 0.0, false);
      currentIndex, lastIndex, lastOffsetX := 0, 0, 0.0;
      potentialIndex := NoPotentialIndex;
      hasProcessAppearance := false;
      cache, children, appearance, events := map[], {}, map[], [];
    }

    /** beginAppearanceTransition(_:animated:) sent to child `c`. */
    method BeginAppearanceTransition(c: Controller, appearing: bool)
      modifies this`appearance
      ensures appearance == old(appearance)[c := Pending(appearing)]
    {
      appearance := appearance[c := Pending(appearing)];
    }

    /** endAppearanceTransition() sent to child `c`. */
    method EndAppearanceTransition(c: Controller)
      modifies this`appearance
      ensures appearance == old(appearance)[c := Rest(old(AppearanceOf(c)))]
      ensures AppearanceOf(c).Settled?
    {
      appearance := appearance[c := Rest(AppearanceOf(c))];
    }

    /**
     * The `dataSource` observer: a default index from the new data source
     * becomes the current index, clamped to the pages it has.
     */
    method SetDataSource(src: Option<PageSource>)
      modifies this`source, this`currentIndex
      ensures source == src
      ensures src.Some? && src.value.defaultIndex.Some? ==>
        currentIndex == ClampDefault(src.value.defaultIndex.value, Count())
      ensures src.None? || src.value.defaultIndex.None? ==> currentIndex == old(currentIndex)
    {
      source := src;
      if src.Some? && src.value.defaultIndex.Some? {
        currentIndex := ClampDefault(src.value.defaultIndex.value, Count());
      }
    }

    /**
     * addChildViewContoller(at:shouldForwardAppearance:): nothing for an
     * index out of range; a controller that is already a child is returned
     * as it is; otherwise it becomes a child, is cached under `index` and,
     * with `flag`, is taken through a whole appearing transition.
     */
    method AddChildViewController(index: int, flag: bool) returns (c: Option<Controller>)
      requires Valid()
      modifies this`cache, this`children, this`appearance
      ensures Valid()
      ensures c == old(ChildAt(index))
      ensures forall j :: ChildAt(j) == old(ChildAt(j))
      ensures c.Some? ==> c.value in children
      ensures c.None? || c.value in old(children) ==>
        cache == old(cache) && children == old(children) && appearance == old(appearance)
      ensures c.Some? && c.value !in old(children) ==>
        && index !in old(cache)
        && cache == old(cache)[index := c.value]
        && children == old(children) + {c.value}
        && appearance == if flag then old(appearance)[c.value := Settled(true)] else old(appearance)
      ensures CachedOnto(old(cache), old(children), index) && ShownOnto(old(appearance), old(children), index, flag)
    {
      c := ChildAt(index);
      if c.None? || c.value in children {
        return;
      }
      var child := c.value;
      if flag {
        BeginAppearanceTransition(child, true);
        EndAppearanceTransition(child);
      }
      assert index !in cache;
      CachingKeepsLookups(source, cache, index);
      CachedAfterAdd(cache, index, child);
      children := children + {child};
      cache := cache[index := child];
    }

    /** removeChildViewContoller: the controller stops being a child. */
    method RemoveChildViewController(c: Controller)
      modifies this`children
      ensures children == old(children) - {c}
    {
      children := children - {c};
    }

    /**
     * clearCaches(_:): every cached entry whose key the reload type does not
     * keep is removed, and its controller is removed from the children.
     */
    method ClearCaches(mode: ReloadType)
      requires Valid()
      modifies this`cache, this`children
      ensures Valid()
      ensures cache == Kept(old(cache), mode, currentIndex, Count())
    {
      ghost var original := cache;
      var entries := cache.Items;
      while entries != {}
        invariant Valid()
        invariant entries <= original.Items
        invariant cache == Unvisited(original, entries, mode, currentIndex, Count())
        decreases |entries|
      {
        var entry :| entry in entries;
        var (index, childViewController) := entry;
        UnvisitedStep(original, entries, entry, mode, currentIndex, Count());
        if !KeepsKey(mode, index, currentIndex, Count()) {
          CachedAfterRemove(cache, index);
          RemoveChildViewController(childViewController);
          cache := cache - {index};
        }
        entries := entries - {entry};
      }
    }

    /** resetCurrentState: a new drag starts from here, and the current page is the one under the offset. */
    method ResetCurrentState()
      modifies this`hasProcessAppearance, this`lastIndex, this`lastOffsetX, this`currentIndex
      ensures !hasProcessAppearance && lastIndex == old(currentIndex) && lastOffsetX == scroll.offsetX
      ensures currentIndex == CV.CalculateIndex(scroll, CV.CurrentOffset)
    {
      hasProcessAppearance := false;
      lastIndex := currentIndex;
      lastOffsetX := scroll.offsetX;
      currentIndex := CV.CalculateIndex(scroll, CV.CurrentOffset);
    }

    /**
     * beginTransitionChildViewController(fromIndex:toIndex:): the target
     * page is added (when it exists) before the source page is looked up;
     * when both exist the old one starts disappearing, the new one
     * appearing, and the delegate hears willTransition.
     */
    method BeginTransition(fromIndex: int, toIndex: int)
      requires Valid()
      modifies this`cache, this`children, this`appearance, this`events
      ensures Valid()
      ensures forall j :: ChildAt(j) == old(ChildAt(j))
      ensures CachedOnto(old(cache), old(children), toIndex)
      ensures events == old(events) + BeginEvents(ChildAt(fromIndex), ChildAt(toIndex))
      ensures appearance == BeginAppearances(old(appearance), ChildAt(fromIndex), ChildAt(toIndex))
    {
      var newController := AddChildViewController(toIndex, false);
      if newController.None? {
        return;
      }
      var oldController := ChildAt(fromIndex);
      if oldController.None? {
        return;
      }
      BeginAppearanceTransition(oldController.value, false);
      BeginAppearanceTransition(newController.value, true);
      events := events + [WillTransition(oldController.value, newController.value)];
    }

    /**
     * endTransitionChildViewController(fromIndex:toIndex:): when both pages
     * exist, either the transition to the current page is complete (both
     * come to rest; didFinishedTransition and didSelected) or it is
     * cancelled (each page is taken back where it was; didCancelledTransition).
     */
    method EndTransition(fromIndex: int, toIndex: int)
      modifies this`appearance, this`events
      ensures var o, n := ChildAt(fromIndex), ChildAt(toIndex);
        && events == old(events) + EndEvents(o, n, potentialIndex == currentIndex, currentIndex)
        && appearance == EndAppearances(old(appearance), o, n, potentialIndex == currentIndex)
      ensures ChildAt(fromIndex).Some? && ChildAt(toIndex).Some? ==>
        && AppearanceOf(ChildAt(fromIndex).value).Settled?
        && AppearanceOf(ChildAt(toIndex).value).Settled?
        && (potentialIndex == currentIndex <==>
              events == old(events) + [DidFinishTransition(ChildAt(fromIndex).value, ChildAt(toIndex).value), DidSelect(currentIndex)])
        && (potentialIndex != currentIndex <==>
              events == old(events) + [DidCancelTransition(ChildAt(fromIndex).value, ChildAt(toIndex).value)])
      ensures ChildAt(fromIndex).None? || ChildAt(toIndex).None? ==> appearance == old(appearance) && events == old(events)
    {
      var oldController := ChildAt(fromIndex);
      var newController := ChildAt(toIndex);
      if oldController.None? || newController.None? {
        return;
      }
      var o, n := oldController.value, newController.value;
      EndSettlesPair(appearance, o, n, potentialIndex == currentIndex);
      if potentialIndex == currentIndex {
        EndAppearanceTransition(o);
        EndAppearanceTransition(n);
        events := events + [DidFinishTransition(o, n), DidSelect(currentIndex)];
      } else {
        BeginAppearanceTransition(o, true);
        EndAppearanceTransition(o);
        BeginAppearanceTransition(n, false);
        EndAppearanceTransition(n);
        events := events + [DidCancelTransition(o, n)];
      }
    }

    /** beginUpdateChildViewControllers: a transition towards `potentialIndex`, unless it is already current. */
    method BeginUpdate()
      requires Valid()
      modifies this`cache, this`children, this`appearance, this`events
      ensures Valid()
      ensures forall j :: ChildAt(j) == old(ChildAt(j))
      ensures currentIndex == potentialIndex ==>
        cache == old(cache) && children == old(children) && appearance == old(appearance) && events == old(events)
      ensures currentIndex != potentialIndex ==>
        && CachedOnto(old(cache), old(children), potentialIndex)
        && events == old(events) + BeginEvents(ChildAt(currentIndex), ChildAt(potentialIndex))
        && appearance == BeginAppearances(old(appearance), ChildAt(currentIndex), ChildAt(potentialIndex))
    {
      if currentIndex == potentialIndex {
        return;
      }
      BeginTransition(currentIndex, potentialIndex);
    }

    /**
     * The effect of endUpdateChildViewControllers: the state is reset with
     * the page under the offset as the current one, and the transition from
     * the previous current page towards `potentialIndex` is ended, committed
     * exactly when `potentialIndex` is now current.
     */
    twostate predicate UpdateEnded()
      reads this
    {
      && !hasProcessAppearance && lastIndex == old(currentIndex) && lastOffsetX == scroll.offsetX
      && currentIndex == CV.CalculateIndex(scroll, CV.CurrentOffset)
      && var o, n := ChildAt(lastIndex), ChildAt(potentialIndex);
      && events == old(events) + EndEvents(o, n, potentialIndex == currentIndex, currentIndex)
      && appearance == EndAppearances(old(appearance), o, n, potentialIndex == currentIndex)
    }

    /**
     * endUpdateChildViewControllers: the page under the offset becomes
     * current, then the transition from the page that was current towards
     * `potentialIndex` is ended; it is committed exactly when that page is
     * the new current one.
     */
    method EndUpdate()
      modifies this`hasProcessAppearance, this`lastIndex, this`lastOffsetX, this`currentIndex, this`appearance, this`events
      ensures UpdateEnded()
      ensures ChildAt(lastIndex).Some? && ChildAt(potentialIndex).Some? ==>
        AppearanceOf(ChildAt(lastIndex).value).Settled? && AppearanceOf(ChildAt(potentialIndex).value).Settled?
    {
      ResetCurrentState();
      EndTransition(lastIndex, potentialIndex);
    }

    /**
     * customScrollAnimation(fromIndex:toIndex:), at the end of its
     * animation: the view jumps next to the target page, scrolls onto it,
     * and the update is ended.  Nothing happens when the source page does
     * not exist.
     */
    method CustomScrollAnimation(fromIndex: int, toIndex: int)
      modifies this`scroll, this`hasProcessAppearance, this`lastIndex, this`lastOffsetX, this`currentIndex, this`appearance, this`events
      ensures ChildAt(fromIndex).None? ==>
        && scroll == old(scroll) && currentIndex == old(currentIndex) && lastIndex == old(lastIndex)
        && lastOffsetX == old(lastOffsetX) && hasProcessAppearance == old(hasProcessAppearance)
        && appearance == old(appearance) && events == old(events)
      ensures ChildAt(fromIndex).Some? ==>
        && scroll == old(scroll).(offsetX := CV.PageOffset(toIndex, old(scroll).width))
        && UpdateEnded()
        && (toIndex >= 0 ==> currentIndex == toIndex)
    {
      var oldController := ChildAt(fromIndex);
      if oldController.None? {
        return;
      }
      var nearestIndex: int;
      if fromIndex > toIndex {
        nearestIndex := toIndex + 1;
      } else {
        nearestIndex := toIndex - 1;
      }
      scroll := scroll.(offsetX := CV.PageOffset(nearestIndex, scroll.width));
      scroll := scroll.(offsetX := CV.PageOffset(toIndex, scroll.width));
      if toIndex >= 0 {
        CV.IndexAtPageStart(scroll, toIndex);
      }
      EndUpdate();
    }

    /**
     * The second half of setCurrentIndex(_:animated:): the view is moved onto
     * the page `potentialIndex`, directly or by the custom animation (when
     * the current page exists), and the update is ended.  With the view
     * resting on that page, the transition is committed.
     */
    method MoveOntoPotentialPage(animated: bool)
      requires potentialIndex >= 0
      modifies this`scroll, this`hasProcessAppearance, this`lastIndex, this`lastOffsetX, this`currentIndex, this`appearance, this`events
      ensures animated && ChildAt(old(currentIndex)).None? ==>
        && scroll == old(scroll) && currentIndex == old(currentIndex) && lastIndex == old(lastIndex)
        && lastOffsetX == old(lastOffsetX) && hasProcessAppearance == old(hasProcessAppearance)
        && appearance == old(appearance) && events == old(events)
      ensures !animated || ChildAt(old(currentIndex)).Some? ==>
        && scroll == old(scroll).(offsetX := CV.PageOffset(potentialIndex, old(scroll).width))
        && UpdateEnded() && currentIndex == potentialIndex
    {
      if !animated {
        scroll := scroll.(offsetX := CV.PageOffset(potentialIndex, scroll.width));
        CV.IndexAtPageStart(scroll, potentialIndex);
        EndUpdate();
      } else {
        CustomScrollAnimation(currentIndex, potentialIndex);
      }
    }

    /**
     * Where a jump to page `index` leaves the container: `index` is the
     * potential page and, once the view has been moved onto it, the current
     * one too; the transition from the old current page (when it exists) is
     * begun and committed, with the delegate hearing willTransition,
     * didFinishedTransition and didSelected, and with the new page left
     * visible, the old one invisible and no other page touched.  Only the
     * custom animation does not run when the old page does not exist.
     */
    twostate predicate JumpedTo(index: int, animated: bool)
      requires 0 <= index < Count()
      reads this
    {
      var o, n := ChildAt(old(currentIndex)), ChildAt(index).value;
      && potentialIndex == index
      && CachedOnto(old(cache), old(children), index)
      && (!animated || o.Some? ==>
            && scroll == old(scroll).(offsetX := CV.PageOffset(index, scroll.width))
            && currentIndex == index && lastIndex == old(currentIndex)
            && lastOffsetX == scroll.offsetX && !hasProcessAppearance)
      && (animated && o.None? ==>
            && scroll == old(scroll) && currentIndex == old(currentIndex) && lastIndex == old(lastIndex)
            && lastOffsetX == old(lastOffsetX) && hasProcessAppearance == old(hasProcessAppearance))
      && (o.None? ==> appearance == old(appearance) && events == old(events))
      && (o.Some? ==>
            && events == old(events) + [WillTransition(o.value, n), DidFinishTransition(o.value, n), DidSelect(index)]
            && AppearanceOf(n) == Settled(true)
            && (o.value != n ==> AppearanceOf(o.value) == Settled(false))
            && (forall d :: d != o.value && d != n ==> AppearanceOf(d) == old(AppearanceOf(d)))
            && (AllSettled(old(appearance)) ==> AllSettled(appearance)))
    }

    /** Lines 435-443 of setCurrentIndex(_:animated:): the jump itself, once the guards have passed. */
    method JumpTo(index: int, animated: bool)
      requires Valid()
      requires 0 <= index < Count() && index != currentIndex
      modifies this`currentIndex, this`potentialIndex, this`scroll, this`lastIndex, this`lastOffsetX,
        this`hasProcessAppearance, this`cache, this`children, this`appearance, this`events
      ensures Valid()
      ensures forall j :: ChildAt(j) == old(ChildAt(j))
      ensures JumpedTo(index, animated)
    {
      ghost var o, n := ChildAt(currentIndex), ChildAt(index).value;
      potentialIndex := index;
      BeginUpdate();
      assert events == old(events) + BeginEvents(o, Some(n));
      assert appearance == BeginAppearances(old(appearance), o, Some(n));
      MoveOntoPotentialPage(animated);
      if o.Some? {
        BeginThenCommit(old(appearance), o.value, n);
      }
    }

    /**
     * setCurrentIndex(_:animated:).  Before the view is loaded the index is
     * only recorded.  An index out of range, or the current one, is
     * ignored.  Otherwise the container jumps to it.
     */
    method SetCurrentIndex(index: int, animated: bool)
      requires Valid()
      modifies this`currentIndex, this`potentialIndex, this`scroll, this`lastIndex, this`lastOffsetX,
        this`hasProcessAppearance, this`cache, this`children, this`appearance, this`events
      ensures Valid()
      ensures forall j :: ChildAt(j) == old(ChildAt(j))
      ensures !isViewLoaded ==>
        && currentIndex == index && potentialIndex == old(potentialIndex) && scroll == old(scroll)
        && lastIndex == old(lastIndex) && lastOffsetX == old(lastOffsetX) && hasProcessAppearance == old(hasProcessAppearance)
        && cache == old(cache) && children == old(children) && appearance == old(appearance) && events == old(events)
      ensures isViewLoaded && (index < 0 || index >= Count() || index == old(currentIndex)) ==>
        && currentIndex == old(currentIndex) && potentialIndex == old(potentialIndex) && scroll == old(scroll)
        && lastIndex == old(lastIndex) && lastOffsetX == old(lastOffsetX) && hasProcessAppearance == old(hasProcessAppearance)
        && cache == old(cache) && children == old(children) && appearance == old(appearance) && events == old(events)
      ensures isViewLoaded && 0 <= index < Count() && index != old(currentIndex) ==> JumpedTo(index, animated)
    {
      if !isViewLoaded {
        currentIndex := index;
        return;
      }
      if index < 0 || index >= Count() || currentIndex == index {
        return;
      }
      JumpTo(index, animated);
    }

    /**
     * What one drag direction of scrollViewDidScroll does, appending to the
     * log `logged`: unless a transition towards `target` is already under
     * way, a transition still heading the `opposite` way is ended first
     * (it is cancelled, its page not being current), and one towards
     * `target` is begun.
     */
    twostate predicate TurnedTowards(target: int, opposite: int, logged: seq<Event>)
      reads this
    {
      if old(hasProcessAppearance) && old(potentialIndex) == target then
        && hasProcessAppearance && potentialIndex == target
        && cache == old(cache) && children == old(children) && appearance == old(appearance) && events == logged
      else
        var c := ChildAt(currentIndex);
        var ended := if old(potentialIndex) == opposite then EndAppearances(old(appearance), c, ChildAt(opposite), false) else old(appearance);
        var endEvents := if old(potentialIndex) == opposite then EndEvents(c, ChildAt(opposite), false, currentIndex) else [];
        && hasProcessAppearance && potentialIndex == target
        && events == logged + endEvents + BeginEvents(c, ChildAt(target))
        && appearance == BeginAppearances(ended, c, ChildAt(target))
        && CachedOnto(old(cache), old(children), target)
    }

    /** Lines 461-468 and 471-478 of scrollViewDidScroll, shared by the two drag directions. */
    method TurnTowards(target: int, opposite: int)
      requires Valid()
      requires target != currentIndex && opposite != currentIndex
      modifies this`hasProcessAppearance, this`potentialIndex, this`cache, this`children, this`appearance, this`events
      ensures Valid()
      ensures forall j :: ChildAt(j) == old(ChildAt(j))
      ensures TurnedTowards(target, opposite, old(events))
    {
      if !hasProcessAppearance || potentialIndex != target {
        hasProcessAppearance := true;
        if potentialIndex == opposite {
          EndTransition(currentIndex, potentialIndex);
        }
        potentialIndex := target;
        BeginUpdate();
      }
    }

    /**
     * scrollViewDidScroll(_:): the content view reports a new offset.  Unless
     * the user is dragging it (or it is decelerating from a drag) nothing
     * else happens.  Otherwise the delegate hears the drag progress, and a
     * step to the right makes the next page the potential one, a step to the
     * left the previous page, turning the transition round when it was
     * heading the other way.
     */
    method ScrollViewDidScroll(offsetX: real, scrolling: bool)
      requires Valid()
      modifies this`scroll, this`hasProcessAppearance, this`potentialIndex, this`cache, this`children, this`appearance, this`events
      ensures Valid()
      ensures forall j :: ChildAt(j) == old(ChildAt(j))
      ensures scroll == old(scroll).(offsetX := offsetX, scrolling := scrolling)
      ensures !scrolling ==>
        && hasProcessAppearance == old(hasProcessAppearance) && potentialIndex == old(potentialIndex)
        && cache == old(cache) && children == old(children) && appearance == old(appearance) && events == old(events)
      ensures scrolling ==>
        var diffX := offsetX - lastOffsetX;
        var logged := old(events) + [Dragging(currentIndex, old(potentialIndex), Abs(diffX / scroll.width))];
        && (diffX > 0.0 ==> TurnedTowards(currentIndex + 1, currentIndex - 1, logged))
        && (diffX < 0.0 ==> TurnedTowards(currentIndex - 1, currentIndex + 1, logged))
        && (diffX == 0.0 ==>
              && hasProcessAppearance == old(hasProcessAppearance) && potentialIndex == old(potentialIndex)
              && cache == old(cache) && children == old(children) && appearance == old(appearance) && events == logged)
      ensures scrolling && offsetX > lastOffsetX ==> potentialIndex == currentIndex + 1 && hasProcessAppearance
      ensures scrolling && offsetX < lastOffsetX ==> potentialIndex == currentIndex - 1 && hasProcessAppearance
      ensures scrolling && offsetX > lastOffsetX && old(potentialIndex) == currentIndex - 1
              && ChildAt(currentIndex).Some? && ChildAt(currentIndex - 1).Some? ==>
        |events| > |old(events)| + 1
        && events[|old(events)| + 1] == DidCancelTransition(ChildAt(currentIndex).value, ChildAt(currentIndex - 1).value)
      ensures scrolling && offsetX < lastOffsetX && old(potentialIndex) == currentIndex + 1
              && ChildAt(currentIndex).Some? && ChildAt(currentIndex + 1).Some? ==>
        |events| > |old(events)| + 1
        && events[|old(events)| + 1] == DidCancelTransition(ChildAt(currentIndex).value, ChildAt(currentIndex + 1).value)
    {
      scroll := scroll.(offsetX := offsetX, scrolling := scrolling);
      if !scroll.scrolling {
        return;
      }
      var diffX := scroll.offsetX - lastOffsetX;
      var percent := Abs(diffX / scroll.width);
      events := events + [Dragging(currentIndex, potentialIndex, percent)];
      if diffX > 0.0 {
        TurnTowards(currentIndex + 1, currentIndex - 1);
      } else if diffX < 0.0 {
        TurnTowards(currentIndex - 1, currentIndex + 1);
      }
    }

    /** scrollViewDidEndDecelerating(_:): the drag is over; a transition it started is ended. */
    method ScrollViewDidEndDecelerating()
      modifies this`scroll, this`hasProcessAppearance, this`lastIndex, this`lastOffsetX, this`currentIndex, this`appearance, this`events
      ensures scroll == old(scroll).(scrolling := false)
      ensures !old(hasProcessAppearance) ==>
        && !hasProcessAppearance && lastIndex == old(lastIndex) && lastOffsetX == old(lastOffsetX)
        && currentIndex == old(currentIndex) && appearance == old(appearance) && events == old(events)
      ensures old(hasProcessAppearance) ==> UpdateEnded()
    {
      scroll := scroll.(scrolling := false);
      if hasProcessAppearance {
        EndUpdate();
      }
    }

    /** scrollViewDidEndScrollingAnimation(_:): the update is ended. */
    method ScrollViewDidEndScrollingAnimation()
      modifies this`hasProcessAppearance, this`lastIndex, this`lastOffsetX, this`currentIndex, this`appearance, this`events
      ensures UpdateEnded()
    {
      EndUpdate();
    }

    /**
     * The effect of relayoutScrollView on a loaded view: the content view
     * takes the view's bounds and one bounds width of content per page;
     * unless the user is scrolling it, it is put on the current page; then
     * the state is reset.
     */
    twostate predicate RelaidOut()
      reads this
    {
      && var laidOut := old(scroll).(width := viewWidth, height := viewHeight, contentWidth := CV.PageOffset(Count(), viewWidth));
      && scroll == laidOut.(offsetX := if laidOut.scrolling then laidOut.offsetX else CV.CalculateContentOffset(laidOut, old(currentIndex)).x)
      && !hasProcessAppearance && lastIndex == old(currentIndex) && lastOffsetX == scroll.offsetX
      && currentIndex == CV.CalculateIndex(scroll, CV.CurrentOffset)
    }

    /**
     * relayoutScrollView.  A view at rest keeps its current page when that
     * page still exists.
     */
    method RelayoutScrollView()
      modifies this`scroll, this`hasProcessAppearance, this`lastIndex, this`lastOffsetX, this`currentIndex
      ensures !isViewLoaded ==>
        && scroll == old(scroll) && hasProcessAppearance == old(hasProcessAppearance)
        && lastIndex == old(lastIndex) && lastOffsetX == old(lastOffsetX) && currentIndex == old(currentIndex)
      ensures isViewLoaded ==> RelaidOut()
      ensures isViewLoaded && !old(scroll.scrolling) && 0 <= old(currentIndex) < Count() ==>
        currentIndex == old(currentIndex) && scroll.offsetX == CV.PageOffset(old(currentIndex), viewWidth)
    {
      if !isViewLoaded {
        return;
      }
      scroll := scroll.(width := viewWidth, height := viewHeight, contentWidth := CV.PageOffset(Count(), viewWidth));
      if !scroll.scrolling {
        if 0 <= currentIndex < Count() {
          CV.RestingOnPage(scroll, Count(), currentIndex);
        }
        var currentOffsetX := CV.CalculateContentOffset(scroll, currentIndex).x;
        scroll := scroll.(offsetX := currentOffsetX);
      }
      ResetCurrentState();
    }

    /** reloadChildViewControllers(shouldForwardAppearance:): relayout, then the current page is added. */
    method ReloadChildViewControllers(flag: bool)
      requires Valid()
      modifies this`scroll, this`hasProcessAppearance, this`lastIndex, this`lastOffsetX, this`currentIndex,
        this`cache, this`children, this`appearance
      ensures Valid()
      ensures forall j :: ChildAt(j) == old(ChildAt(j))
      ensures !isViewLoaded ==>
        && scroll == old(scroll) && hasProcessAppearance == old(hasProcessAppearance)
        && lastIndex == old(lastIndex) && lastOffsetX == old(lastOffsetX) && currentIndex == old(currentIndex)
        && cache == old(cache) && children == old(children) && appearance == old(appearance)
      ensures isViewLoaded ==>
        && RelaidOut()
        && CachedOnto(old(cache), old(children), currentIndex)
        && ShownOnto(old(appearance), old(children), currentIndex, flag)
      ensures isViewLoaded && !old(scroll.scrolling) && 0 <= old(currentIndex) < Count() ==> currentIndex == old(currentIndex)
    {
      if !isViewLoaded {
        return;
      }
      RelayoutScrollView();
      var _ := AddChildViewController(currentIndex, flag);
    }

    /**
     * reloadData(_:).  `answers` is what the data source answers from now
     * on.  The cache is cleared as the reload type says, and the current
     * page is laid out and added again, appearing when it is new.  The
     * delegate hears nothing.
     */
    method ReloadData(mode: ReloadType, answers: Option<PageSource>)
      requires Valid()
      modifies this`source, this`scroll, this`hasProcessAppearance, this`lastIndex, this`lastOffsetX, this`currentIndex,
        this`cache, this`children, this`appearance
      ensures Valid()
      ensures source == answers
      ensures var kept := Kept(old(cache), mode, old(currentIndex), Count());
        && (!isViewLoaded ==> cache == kept && appearance == old(appearance))
        && (isViewLoaded ==>
              && CachedOnto(kept, Cached(kept), currentIndex)
              && ShownOnto(old(appearance), Cached(kept), currentIndex, true))
      ensures isViewLoaded ==> RelaidOut()
      ensures isViewLoaded && !old(scroll.scrolling) && 0 <= old(currentIndex) < Count() ==> currentIndex == old(currentIndex)
      ensures !isViewLoaded ==>
        && scroll == old(scroll) && hasProcessAppearance == old(hasProcessAppearance)
        && lastIndex == old(lastIndex) && lastOffsetX == old(lastOffsetX) && currentIndex == old(currentIndex)
    {
      source := answers;
      ClearCaches(mode);
      ReloadChildViewControllers(true);
    }

    /** viewDidLoad: the view exists (setup installs the content view's callback), and the current page is loaded. */
    method ViewDidLoad()
      requires Valid()
      modifies this`isViewLoaded, this`scroll, this`hasProcessAppearance, this`lastIndex, this`lastOffsetX, this`currentIndex,
        this`cache, this`children, this`appearance
      ensures Valid() && isViewLoaded
      ensures forall j :: ChildAt(j) == old(ChildAt(j))
      ensures RelaidOut()
      ensures CachedOnto(old(cache), old(children), currentIndex)
      ensures appearance == old(appearance)
    {
      isViewLoaded := true;
      ReloadChildViewControllers(false);
    }

    /** viewDidLayoutSubviews: the view has taken the given bounds, and the content view follows. */
    method ViewDidLayoutSubviews(width: CV.Positive, height: real)
      modifies this`viewWidth, this`viewHeight, this`scroll, this`hasProcessAppearance, this`lastIndex, this`lastOffsetX, this`currentIndex
      ensures viewWidth == width && viewHeight == height
      ensures isViewLoaded ==> RelaidOut()
      ensures !isViewLoaded ==>
        && scroll == old(scroll) && hasProcessAppearance == old(hasProcessAppearance)
        && lastIndex == old(lastIndex) && lastOffsetX == old(lastOffsetX) && currentIndex == old(currentIndex)
    {
      viewWidth, viewHeight := width, height;
      RelayoutScrollView();
    }

    /** didReceiveMemoryWarning: every cached page but the current one is dropped. */
    method DidReceiveMemoryWarning()
      requires Valid()
      modifies this`cache, this`children
      ensures Valid()
      ensures cache == Kept(old(cache), ExceptCurrentIndex, currentIndex, Count())
      ensures cache.Keys <= {currentIndex}
    {
      ClearCaches(ExceptCurrentIndex);
    }

    /** viewWillAppear(_:): the current page starts appearing. */
    method ViewWillAppear()
      modifies this`appearance
      ensures ChildAt(currentIndex).None? ==> appearance == old(appearance)
      ensures ChildAt(currentIndex).Some? ==> appearance == old(appearance)[ChildAt(currentIndex).value := Pending(true)]
    {
      var c := ChildAt(currentIndex);
      if c.Some? {
        BeginAppearanceTransition(c.value, true);
      }
    }

    /** viewDidAppear(_:): the current page's transition comes to rest. */
    method ViewDidAppear()
      modifies this`appearance
      ensures ChildAt(currentIndex).None? ==> appearance == old(appearance)
      ensures ChildAt(currentIndex).Some? ==>
        && appearance == old(appearance)[ChildAt(currentIndex).value := Rest(old(AppearanceOf(ChildAt(currentIndex).value)))]
        && (old(AppearanceOf(ChildAt(currentIndex).value)) == Pending(true) ==> AppearanceOf(ChildAt(currentIndex).value) == Settled(true))
    {
      var c := ChildAt(currentIndex);
      if c.Some? {
        EndAppearanceTransition(c.value);
      }
    }

    /** viewWillDisappear(_:): the current page starts disappearing. */
    method ViewWillDisappear()
      modifies this`appearance
      ensures ChildAt(currentIndex).None? ==> appearance == old(appearance)
      ensures ChildAt(currentIndex).Some? ==> appearance == old(appearance)[ChildAt(currentIndex).value := Pending(false)]
    {
      var c := ChildAt(currentIndex);
      if c.Some? {
        BeginAppearanceTransition(c.value, false);
      }
    }

    /** viewDidDisappear(_:): the current page's transition comes to rest. */
    method ViewDidDisappear()
      modifies this`appearance
      ensures ChildAt(currentIndex).None? ==> appearance == old(appearance)
      ensures ChildAt(currentIndex).Some? ==>
        && appearance == old(appearance)[ChildAt(currentIndex).value := Rest(old(AppearanceOf(ChildAt(currentIndex).value)))]
        && (old(AppearanceOf(ChildAt(currentIndex).value)) == Pending(false) ==> AppearanceOf(ChildAt(currentIndex).value) == Settled(false))
    {
      var c := ChildAt(currentIndex);
      if c.Some? {
        EndAppearanceTransition(c.value);
      }
    }

    /**
     * The content view's setContentOffset(_:animated:) once `setup` has
     * installed the callback (the view is loaded): the view does not move,
     * and the container jumps to the page under the requested offset.
     * Before that the content view simply moves.
     */
    method ContentViewSetContentOffset(p: CV.Point, animated: bool)
      requires Valid()
      modifies this`currentIndex, this`potentialIndex, this`scroll, this`lastIndex, this`lastOffsetX,
        this`hasProcessAppearance, this`cache, this`children, this`appearance, this`events
      ensures Valid()
      ensures !isViewLoaded ==>
        && scroll == old(scroll).(offsetX := p.x)
        && currentIndex == old(currentIndex) && potentialIndex == old(potentialIndex)
        && lastIndex == old(lastIndex) && lastOffsetX == old(lastOffsetX) && hasProcessAppearance == old(hasProcessAppearance)
        && cache == old(cache) && children == old(children) && appearance == old(appearance) && events == old(events)
      ensures isViewLoaded ==>
        var index := CV.CalculateIndex(old(scroll), p.x);
        && (index >= Count() || index == old(currentIndex) ==>
              && scroll == old(scroll) && currentIndex == old(currentIndex) && potentialIndex == old(potentialIndex)
              && lastIndex == old(lastIndex) && lastOffsetX == old(lastOffsetX)
              && hasProcessAppearance == old(hasProcessAppearance)
              && cache == old(cache) && children == old(children) && appearance == old(appearance) && events == old(events))
        && (index < Count() && index != old(currentIndex) ==> JumpedTo(index, animated))
    {
      match CV.SetContentOffset(scroll, p, animated, isViewLoaded)
      case ForwardToCallback(index, a) =>
        SetCurrentIndex(index, a);
      case Scrolled(v) =>
        scroll := v;
    }
  }
}
