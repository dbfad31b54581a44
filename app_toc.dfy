/**
 * The scroll-spy of app/composables/useToc.ts: the variant that memoises
 * element lookups and ignores a jump to a heading that is not in the
 * document.
 *
 * The state machine is given twice: as pure transitions over `State`
 * (where the properties are proved) and as the class `Toc`, whose fields
 * are the composable's refs and whose methods are proved to perform
 * exactly those transitions.
 */
module AppToc {
  import opened Wrappers
  import opened TocHost

  /** The composable's refs together with the browser state they drive. */
  datatype State = State(
    activeLink: string,
    userClicked: bool,
    clickTimeout: Option<nat>,
    observerStops: seq<nat>,
    elementCache: map<string, Element>,
    host: Host)

  /** The state right after `useToc(links)` is called, before mounting. */
  const Initial: State := State("", false, None, [], map[], EmptyHost)

  /** Every cache entry is a hit: an id present in the document, bound to its element. */
  ghost predicate CacheHits(cache: map<string, Element>, dom: Document)
  {
    forall id :: id in cache ==> id in dom && cache[id] == Element(id)
  }

  /**
   * The bookkeeping invariant: the live observers are exactly those whose
   * stop is held, every observer watches an element of the document, the
   * only pending timer is the one in the `clickTimeout` slot, and the cache
   * holds only hits.
   */
  ghost predicate Sound(s: State, dom: Document)
  {
    && HostValid(s.host)
    && (forall i :: 0 <= i < |s.host.observed| ==> s.host.observed[i] in dom)
    && ObserversHeld(s.host, s.observerStops)
    && TimerInSlot(s.host, s.clickTimeout)
    && CacheHits(s.elementCache, dom)
  }

  /** The highlighted id is unset, the first link's id, or an id of the document. */
  ghost predicate ActiveOk(active: string, links: seq<TocLink>, dom: Document)
  {
    active == "" || active in dom || (|links| > 0 && active == links[0].id)
  }

  ghost predicate Inv(s: State, links: seq<TocLink>, dom: Document)
  {
    Sound(s, dom) && ActiveOk(s.activeLink, links, dom)
  }

  datatype Lookup = Lookup(element: Option<Element>, cache: map<string, Element>)

  /** getElement: the cached element on a hit; on a miss a document lookup, cached only when found. */
  function Resolve(cache: map<string, Element>, dom: Document, id: string): (r: Lookup)
    ensures CacheHits(cache, dom) ==> r.element == GetElementById(dom, id) && CacheHits(r.cache, dom)
    ensures id in cache ==> r == Lookup(Some(cache[id]), cache)
    ensures r.cache.Keys == cache.Keys + (if id in dom then {id} else {})
    ensures forall k :: k in cache ==> k in r.cache && r.cache[k] == cache[k]
    ensures r.element.None? ==> r.cache == cache
  {
    if id in cache then Lookup(Some(cache[id]), cache)
    else
      var el := GetElementById(dom, id);
      Lookup(el, if el.Some? then cache[id := el.value] else cache)
  }

  /** One turn of the `links.forEach` in initToc: resolve, and observe when found. */
  function Track(s: State, dom: Document, link: TocLink): State
  {
    var lk := Resolve(s.elementCache, dom, link.id);
    if lk.element.None? then s.(elementCache := lk.cache)
    else
      var (h, o) := Observe(s.host, link.id);
      s.(elementCache := lk.cache, host := h, observerStops := s.observerStops + [o])
  }

  /** The whole `links.forEach`, first link to last. */
  function TrackAll(s: State, dom: Document, links: seq<TocLink>): State
  {
    if links == [] then s
    else Track(TrackAll(s, dom, links[..|links| - 1]), dom, links[|links| - 1])
  }

  /** Only the observers, the cache and the observer table change while tracking. */
  predicate SameRefs(s: State, r: State)
  {
    && r.activeLink == s.activeLink && r.userClicked == s.userClicked
    && r.clickTimeout == s.clickTimeout && r.host.timers == s.host.timers
    && r.host.nextTimer == s.host.nextTimer && r.host.scrolls == s.host.scrolls
  }

  lemma TrackSpec(s: State, dom: Document, link: TocLink)
    requires Sound(s, dom)
    ensures var r := Track(s, dom, link);
      && Sound(r, dom) && SameRefs(s, r)
      && ObservedIds(r.host, r.observerStops) == ObservedIds(s.host, s.observerStops) + (if link.id in dom then [link.id] else [])
      && (forall x :: x in r.elementCache <==> x in s.elementCache || (x == link.id && link.id in dom))
  {
    var r := Track(s, dom, link);
    if link.id in dom {
      var o := |s.host.observed|;
      assert r.host.observed == s.host.observed + [link.id];
      assert o !in s.observerStops by {
        assert o !in s.host.live;
      }
      forall i | 0 <= i < |s.observerStops|
        ensures ObservedIds(r.host, r.observerStops)[i] == ObservedIds(s.host, s.observerStops)[i]
      {
        assert s.observerStops[i] in s.host.live;
      }
      assert ObservedIds(r.host, r.observerStops) == ObservedIds(s.host, s.observerStops) + [link.id];
    }
  }

  /** Tracking registers one live observer per resolvable link, in link order, and caches exactly those hits. */
  lemma {:induction false} TrackAllSpec(s: State, dom: Document, links: seq<TocLink>)
    requires Sound(s, dom)
    ensures var r := TrackAll(s, dom, links);
      && Sound(r, dom) && SameRefs(s, r)
      && ObservedIds(r.host, r.observerStops) == ObservedIds(s.host, s.observerStops) + Resolvable(links, dom)
      && |r.observerStops| == |s.observerStops| + |Resolvable(links, dom)|
      && (forall x :: x in r.elementCache <==> x in s.elementCache || x in Resolvable(links, dom))
  {
    if links != [] {
      var init, last := links[..|links| - 1], links[|links| - 1];
      TrackAllSpec(s, dom, init);
      TrackSpec(TrackAll(s, dom, init), dom, last);
    }
  }

  /**
   * initToc: nothing happens off the client or with no links; otherwise the
   * first link becomes active if none is, the links are tracked, and a
   * teardown is returned (the second component).
   */
  function Initialized(s: State, links: seq<TocLink>, dom: Document, client: bool): (r: (State, bool))
    ensures (!client || |links| == 0) ==> r == (s, false)
    ensures client && |links| > 0 ==>
      r.1 && r.0.activeLink == (if s.activeLink == "" then links[0].id else s.activeLink)
    ensures r.0.userClicked == s.userClicked
  {
    if !client || |links| == 0 then (s, false)
    else
      var s1 := if s.activeLink == "" then s.(activeLink := links[0].id) else s;
      var r := TrackAll(s1, dom, links);
      TrackAllRefs(s1, dom, links);
      (r, true)
  }

  /** Tracking never touches the active link, whatever the state. */
  lemma {:induction false} TrackAllRefs(s: State, dom: Document, links: seq<TocLink>)
    ensures TrackAll(s, dom, links).activeLink == s.activeLink
    ensures TrackAll(s, dom, links).userClicked == s.userClicked
  {
    if links != [] {
      TrackAllRefs(s, dom, links[..|links| - 1]);
    }
  }

  /** On mount, one observer per link whose element exists, in link order. */
  lemma InitObservesResolvable(s: State, links: seq<TocLink>, dom: Document)
    requires Sound(s, dom) && |links| > 0
    ensures var r := Initialized(s, links, dom, true).0;
      && ObservedIds(r.host, r.observerStops) == ObservedIds(s.host, s.observerStops) + Resolvable(links, dom)
      && |r.observerStops| == |s.observerStops| + |Resolvable(links, dom)|
      && Sound(r, dom)
  {
    var s1 := if s.activeLink == "" then s.(activeLink := links[0].id) else s;
    TrackAllSpec(s1, dom, links);
  }

  /** The intersection callback: a live observer's intersecting entry moves the highlight unless overridden. */
  function Intersected(s: State, observer: nat, entries: seq<bool>): (r: State)
    ensures r == s.(activeLink := r.activeLink)
    ensures r.activeLink != s.activeLink ==>
              && observer in s.host.live && observer < |s.host.observed| && !s.userClicked
              && |entries| > 0 && entries[0] && r.activeLink == s.host.observed[observer]
    ensures observer !in s.host.live ==> r == s
    ensures (observer in s.host.live && observer < |s.host.observed| && !s.userClicked &&
             |entries| > 0 && entries[0]) ==> r.activeLink == s.host.observed[observer]
  {
    if observer in s.host.live && observer < |s.host.observed| && !s.userClicked
       && |entries| > 0 && entries[0]
    then s.(activeLink := s.host.observed[observer])
    else s
  }

  /** scrollToHeading. */
  function ScrolledTo(s: State, dom: Document, id: string): (r: State)
    ensures id !in dom && CacheHits(s.elementCache, dom) ==> r == s
    ensures id in dom && Sound(s, dom) ==>
      && r.activeLink == id && r.userClicked
      && r.clickTimeout.Some? && r.host.timers == map[r.clickTimeout.value := OverrideMs]
      && (s.clickTimeout.Some? ==> s.clickTimeout.value != r.clickTimeout.value)
      && r.host.scrolls == s.host.scrolls + [id]
      && r.observerStops == s.observerStops && r.host.live == s.host.live
      && r.host.observed == s.host.observed
  {
    var lk := Resolve(s.elementCache, dom, id);
    if lk.element.None? then s.(elementCache := lk.cache)
    else
      var h1 := ScrollIntoView(s.host, id);
      var h2 := if s.clickTimeout.Some? then ClearTimeout(h1, s.clickTimeout.value) else h1;
      var (h3, t) := SetTimeout(h2, OverrideMs);
      assert TimerInSlot(s.host, s.clickTimeout) ==> h2.timers == map[] by {
        if TimerInSlot(s.host, s.clickTimeout) { ClearingSlotClearsAll(s.host, s.clickTimeout); }
      }
      s.(activeLink := id, userClicked := true, clickTimeout := Some(t),
         elementCache := lk.cache, host := h3)
  }

  /** The override timer's callback: a pending timer ends the override, and does nothing else. */
  function Expired(s: State, timer: nat): (r: State)
    ensures timer in s.host.timers ==> r == s.(userClicked := false, host := s.host.(timers := s.host.timers - {timer}))
    ensures timer !in s.host.timers ==> r == s
  {
    if timer in s.host.timers then s.(userClicked := false, host := Fire(s.host, timer)) else s
  }

  /** The teardown closure returned by initToc. */
  function TornDown(s: State): (r: State)
    ensures ObserversHeld(s.host, s.observerStops) ==> r.host.live == {}
    ensures TimerInSlot(s.host, s.clickTimeout) ==> r.host.timers == map[]
    ensures r.observerStops == [] && r.elementCache == map[]
    ensures r.activeLink == s.activeLink && r.userClicked == s.userClicked && r.clickTimeout == s.clickTimeout
    ensures r.host == s.host.(live := r.host.live, timers := r.host.timers)
  {
    var h1 := StopAll(s.host, s.observerStops);
    StopAllSpec(s.host, s.observerStops);
    var h2 := if s.clickTimeout.Some? then ClearTimeout(h1, s.clickTimeout.value) else h1;
    s.(observerStops := [], elementCache := map[], host := h2)
  }

  /** Everything that can happen to a mounted scroll-spy. */
  datatype Event =
    | Mount                                      // onMounted runs initToc
    | Intersect(observer: nat, entries: seq<bool>) // an observer reports its entries' isIntersecting
    | Jump(id: string)                           // a TOC entry calls scrollToHeading(id)
    | TimerExpiry(timer: nat)                    // the host runs a due timer
    | Teardown                                   // the cleanup closure runs

  function Step(s: State, links: seq<TocLink>, dom: Document, client: bool, e: Event): State
  {
    match e
    case Mount => Initialized(s, links, dom, client).0
    case Intersect(o, entries) => Intersected(s, o, entries)
    case Jump(id) => ScrolledTo(s, dom, id)
    case TimerExpiry(t) => Expired(s, t)
    case Teardown => TornDown(s)
  }

  function Run(s: State, links: seq<TocLink>, dom: Document, client: bool, events: seq<Event>): State
    decreases |events|
  {
    if events == [] then s else Run(Step(s, links, dom, client, events[0]), links, dom, client, events[1..])
  }

  lemma InitialInv(links: seq<TocLink>, dom: Document)
    ensures Inv(Initial, links, dom)
  {
  }

  /** Every event keeps the invariant. */
  lemma StepInv(s: State, links: seq<TocLink>, dom: Document, client: bool, e: Event)
    requires Inv(s, links, dom)
    ensures Inv(Step(s, links, dom, client, e), links, dom)
  {
    match e
    case Mount =>
      if client && |links| > 0 {
        var s1 := if s.activeLink == "" then s.(activeLink := links[0].id) else s;
        TrackAllSpec(s1, dom, links);
      }
    case Intersect(o, entries) =>
    case Jump(id) =>
    case TimerExpiry(t) =>
    case Teardown =>
  }

  lemma {:induction false} RunInv(s: State, links: seq<TocLink>, dom: Document, client: bool, events: seq<Event>)
    requires Inv(s, links, dom)
    ensures Inv(Run(s, links, dom, client, events), links, dom)
    decreases |events|
  {
    if events != [] {
      StepInv(s, links, dom, client, events[0]);
      RunInv(Step(s, links, dom, client, events[0]), links, dom, client, events[1..]);
    }
  }

  /** While the override holds, no intersection moves the highlight. */
  lemma OverrideSuppresses(s: State, observer: nat, entries: seq<bool>)
    requires s.userClicked
    ensures Intersected(s, observer, entries) == s
  {
  }

  /** Observer and timer callbacks only: the events that may still arrive after teardown. */
  predicate Callback(e: Event)
  {
    e.Intersect? || e.TimerExpiry?
  }

  /** After teardown no late observer or timer callback changes anything. */
  lemma {:induction false} TornDownInert(s: State, links: seq<TocLink>, dom: Document, client: bool, events: seq<Event>)
    requires ObserversHeld(s.host, s.observerStops) && TimerInSlot(s.host, s.clickTimeout)
    requires forall i :: 0 <= i < |events| ==> Callback(events[i])
    ensures Run(TornDown(s), links, dom, client, events) == TornDown(s)
  {
    TornDownInertFrom(TornDown(s), links, dom, client, events);
  }

  lemma {:induction false} TornDownInertFrom(d: State, links: seq<TocLink>, dom: Document, client: bool, events: seq<Event>)
    requires d.host.live == {} && d.host.timers == map[]
    requires forall i :: 0 <= i < |events| ==> Callback(events[i])
    ensures Run(d, links, dom, client, events) == d
    decreases |events|
  {
    if events != [] {
      assert Step(d, links, dom, client, events[0]) == d;
      TornDownInertFrom(d, links, dom, client, events[1..]);
    }
  }

  /**
   * A jump holds the highlight until its timer fires; after that an
   * intersecting heading takes the highlight again.
   */
  lemma OverrideEnds(s: State, dom: Document, id: string, observer: nat)
    requires Sound(s, dom) && id in dom && observer in s.host.live
    ensures var r := ScrolledTo(s, dom, id);
      && r.clickTimeout.Some?
      && Intersected(r, observer, [true]).activeLink == id
      && var e := Expired(r, r.clickTimeout.value);
         && !e.userClicked && e.activeLink == id
         && Intersected(e, observer, [true]).activeLink == s.host.observed[observer]
  {
  }

  /**
   * The walk-through of a three-heading page: mount, scroll past "b", jump
   * to "c", scroll past "a" during the override, let the timer fire, then
   * scroll past "a" again; a jump to a missing id changes nothing.
   */
  lemma Walkthrough()
    ensures var links, dom := [TocLink("a"), TocLink("b"), TocLink("c")], {"a", "b", "c"};
      var (s1, cleanup) := Initialized(Initial, links, dom, true);
      && cleanup && s1.activeLink == "a" && !s1.userClicked && Sound(s1, dom)
      && ObservedIds(s1.host, s1.observerStops) == ["a", "b", "c"]
  {
    var links, dom := [TocLink("a"), TocLink("b"), TocLink("c")], {"a", "b", "c"};
    InitialInv(links, dom);
    ResolvableAll(links, dom);
    assert LinkIds(links) == ["a", "b", "c"];
    InitObservesResolvable(Initial, links, dom);
  }

  /** The rest of the walk-through, from any sound state whose observers report for "a" and "b". */
  lemma WalkthroughAfterMount(s1: State, dom: Document, forA: nat, forB: nat)
    requires Sound(s1, dom) && !s1.userClicked && "c" in dom && "missing-id" !in dom
    requires forA in s1.host.live && forB in s1.host.live
    requires s1.host.observed[forA] == "a" && s1.host.observed[forB] == "b"
    ensures var s2 := Intersected(s1, forB, [true]);
      var s3 := ScrolledTo(s2, dom, "c");
      var s4 := Intersected(s3, forA, [true]);
      var s5 := Expired(s4, s3.clickTimeout.value);
      var s6 := Intersected(s5, forA, [true]);
      && s2.activeLink == "b"
      && s3.activeLink == "c" && s3.userClicked && s4.activeLink == "c"
      && !s5.userClicked && s6.activeLink == "a"
      && ScrolledTo(s6, dom, "missing-id") == s6
  {
    var s2 := Intersected(s1, forB, [true]);
    assert Sound(s2, dom);
    var s3 := ScrolledTo(s2, dom, "c");
    var s4 := Intersected(s3, forA, [true]);
    var s5 := Expired(s4, s3.clickTimeout.value);
    assert CacheHits(s5.elementCache, dom);
  }

  /** The whole walk-through as one run: mount a, b, c, then scroll past b, jump to c, let the override expire, and jump to a missing id. */
  lemma WalkthroughRun()
    ensures var links, dom := [TocLink("a"), TocLink("b"), TocLink("c")], {"a", "b", "c"};
      var (s1, cleanup) := Initialized(Initial, links, dom, true);
      var forA, forB := s1.observerStops[0], s1.observerStops[1];
      var s2 := Intersected(s1, forB, [true]);
      var s3 := ScrolledTo(s2, dom, "c");
      var s4 := Intersected(s3, forA, [true]);
      var s5 := Expired(s4, s3.clickTimeout.value);
      var s6 := Intersected(s5, forA, [true]);
      && cleanup && s1.activeLink == "a"
      && s2.activeLink == "b"
      && s3.activeLink == "c" && s3.userClicked && s4.activeLink == "c"
      && !s5.userClicked && s6.activeLink == "a"
      && ScrolledTo(s6, dom, "missing-id") == s6
  {
    var links, dom := [TocLink("a"), TocLink("b"), TocLink("c")], {"a", "b", "c"};
    Walkthrough();
    var (s1, cleanup) := Initialized(Initial, links, dom, true);
    var ids := ObservedIds(s1.host, s1.observerStops);
    assert ids[0] == "a" && ids[1] == "b";
    WalkthroughAfterMount(s1, dom, s1.observerStops[0], s1.observerStops[1]);
  }

  /**
   * The composable returned by `useToc(links)`: its refs as fields, the
   * browser state as `host`, and the lifecycle hooks as methods.
   */
  class Toc {
    const links: seq<TocLink>
    const dom: Document     // ids of the rendered elements
    const client: bool         // import.meta.client
    var activeLink: string
    var userClicked: bool
    var clickTimeout: Option<nat>
    var observerStops: seq<nat>
    var elementCache: map<string, Element>
    var host: Host
    var cleanup: bool          // whether onMounted registered the teardown with onBeforeUnmount

    function Model(): State
      reads this
    {
      State(activeLink, userClicked, clickTimeout, observerStops, elementCache, host)
    }

    ghost predicate Valid()
      reads this
    {
      Inv(Model(), links, dom)
    }

    constructor (links: seq<TocLink>, dom: Document, client: bool)
      ensures Valid() && Model() == Initial && !cleanup
      ensures this.links == links && this.dom == dom && this.client == client
    {
      this.links, this.dom, this.client := links, dom, client;
      activeLink, userClicked, clickTimeout := "", false, None;
      observerStops, elementCache, host := [], map[], EmptyHost;
      cleanup := false;
      InitialInv(links, dom);
    }

    method GetElement(id: string) returns (el: Option<Element>)
      requires CacheHits(elementCache, dom)
      modifies this`elementCache
      ensures el == GetElementById(dom, id)
      ensures elementCache == Resolve(old(elementCache), dom, id).cache
    {
      if id in elementCache {
        return Some(elementCache[id]);
      }
      el := GetElementById(dom, id);
      if el.Some? {
        elementCache := elementCache[id := el.value];
      }
    }

    method InitToc() returns (hasCleanup: bool)
      requires Valid()
      modifies this
      ensures Valid() && cleanup == old(cleanup)
      ensures (Model(), hasCleanup) == Initialized(old(Model()), links, dom, client)
    {
      if !client || |links| == 0 {
        return false;
      }
      if activeLink == "" {
        activeLink := links[0].id;
      }
      ghost var start := Model();
      var i := 0;
      while i < |links|
        invariant 0 <= i <= |links|
        invariant Model() == TrackAll(start, dom, links[..i])
        invariant Sound(Model(), dom)
        invariant cleanup == old(cleanup)
      {
        TrackLink(links[i]);
        assert links[..i + 1][..i] == links[..i];
        i := i + 1;
      }
      assert links[..i] == links;
      hasCleanup := true;
      StepInv(old(Model()), links, dom, client, Event.Mount);
    }

    /** The `links.forEach` callback of initToc: observe the link's element if it exists. */
    method TrackLink(link: TocLink)
      requires Sound(Model(), dom)
      modifies this`elementCache, this`host, this`observerStops
      ensures Sound(Model(), dom)
      ensures Model() == Track(old(Model()), dom, link)
    {
      var el := GetElement(link.id);
      if el.Some? {
        var (h, stop) := Observe(host, link.id);
        host := h;
        observerStops := observerStops + [stop];
      }
      TrackSpec(old(Model()), dom, link);
    }

    /** The callback of observer `observer`; the host calls it only while the observer is live. */
    method OnIntersection(observer: nat, entries: seq<bool>)
      requires Valid()
      modifies this`activeLink
      ensures Valid()
      ensures Model() == Intersected(old(Model()), observer, entries)
    {
      if observer in host.live && observer < |host.observed| {
        var linkId := host.observed[observer];
        if !userClicked && |entries| > 0 && entries[0] {
          activeLink := linkId;
        }
      }
      StepInv(old(Model()), links, dom, client, Intersect(observer, entries));
    }

    method ScrollToHeading(id: string)
      requires Valid()
      modifies this
      ensures Valid() && cleanup == old(cleanup)
      ensures Model() == ScrolledTo(old(Model()), dom, id)
    {
      var el := GetElement(id);
      if el.None? {
        return;
      }
      host := ScrollIntoView(host, id);
      activeLink := id;
      userClicked := true;
      if clickTimeout.Some? {
        host := ClearTimeout(host, clickTimeout.value);
      }
      var (h, t) := SetTimeout(host, OverrideMs);
      host, clickTimeout := h, Some(t);
      StepInv(old(Model()), links, dom, client, Jump(id));
    }

    /** The host runs timer `timer`: a pending one resets the override. */
    method OnTimer(timer: nat)
      requires Valid()
      modifies this`userClicked, this`host
      ensures Valid()
      ensures Model() == Expired(old(Model()), timer)
    {
      if timer in host.timers {
        host := Fire(host, timer);
        userClicked := false;
      }
      StepInv(old(Model()), links, dom, client, TimerExpiry(timer));
    }

    /** The teardown closure that initToc returns. */
    method Teardown()
      requires Valid()
      modifies this
      ensures Valid() && cleanup == old(cleanup)
      ensures Model() == TornDown(old(Model()))
    {
      var i := 0;
      while i < |observerStops|
        invariant 0 <= i <= |observerStops|
        invariant Model() == old(Model()).(host := StopAll(old(host), observerStops[..i]))
        invariant cleanup == old(cleanup)
      {
        host := Stop(host, observerStops[i]);
        assert observerStops[..i + 1][..i] == observerStops[..i];
        i := i + 1;
      }
      assert observerStops[..i] == observerStops;
      observerStops := [];
      elementCache := map[];
      if clickTimeout.Some? {
        host := ClearTimeout(host, clickTimeout.value);
      }
      StepInv(old(Model()), links, dom, client, Event.Teardown);
    }

    /** onMounted: run initToc and register its cleanup, if any, for unmounting. */
    method Mount()
      requires Valid()
      modifies this
      ensures Valid()
      ensures (Model(), cleanup) == Initialized(old(Model()), links, dom, client)
    {
      var c := InitToc();
      cleanup := c;
    }

    /** onBeforeUnmount: the registered cleanup runs. */
    method Unmount()
      requires Valid()
      modifies this
      ensures Valid() && cleanup == old(cleanup)
      ensures Model() == if old(cleanup) then TornDown(old(Model())) else old(Model())
    {
      if cleanup {
        Teardown();
      }
    }
  }
}
