/**
 * The scroll-spy of composables/useToc.ts: the variant without an element
 * cache, whose scrollToHeading skips only the scroll when the heading is
 * missing and still takes over the highlight.
 *
 * As in AppToc, pure transitions over `State` carry the properties and
 * the class `Toc` is proved to perform exactly those transitions.
 */
module LegacyToc {
  import opened Wrappers
  import opened TocHost

  /** The composable's refs together with the browser state they drive. */
  datatype State = State(
    activeLink: string,
    userClicked: bool,
    clickTimeout: Option<nat>,
    observerStops: seq<nat>,
    host: Host)

  /** The state right after `useToc(links)` is called, before mounting. */
  const Initial: State := State("", false, None, [], EmptyHost)

  /**
   * The bookkeeping invariant: the live observers are exactly those whose
   * stop is held, every observer watches an element of the document, and
   * the only pending timer is the one in the `clickTimeout` slot.
   */
  ghost predicate Sound(s: State, dom: Document)
  {
    && HostValid(s.host)
    && (forall i :: 0 <= i < |s.host.observed| ==> s.host.observed[i] in dom)
    && ObserversHeld(s.host, s.observerStops)
    && TimerInSlot(s.host, s.clickTimeout)
  }

  /** One turn of the `links.forEach` in initToc: look the element up, and observe it when found. */
  function Track(s: State, dom: Document, link: TocLink): State
  {
    var el := GetElementById(dom, link.id);
    if el.None? then s
    else
      var (h, o) := Observe(s.host, link.id);
      s.(host := h, observerStops := s.observerStops + [o])
  }

  /** The whole `links.forEach`, first link to last. */
  function TrackAll(s: State, dom: Document, links: seq<TocLink>): State
  {
    if links == [] then s
    else Track(TrackAll(s, dom, links[..|links| - 1]), dom, links[|links| - 1])
  }

  /** Only the observers and the observer table change while tracking. */
  predicate SameRefs(s: State, r: State)
  {
    && r.activeLink == s.activeLink && r.userClicked == s.userClicked
    && r.clickTimeout == s.clickTimeout && r.host.timers == s.host.timers
    && r.host.nextTimer == s.host.nextTimer && r.host.scrolls == s.host.scrolls
  }

  lemma TrackSpec(s: State, dom: Document, link: TocLink)
    requires Sound(s, dom)
    ensures var r := Track(s, dom, link);
      && Sound(r, dom) && SameRefs(s, r)
      && ObservedIds(r.host, r.observerStops)
         == ObservedIds(s.host, s.observerStops) + (if link.id in dom then [link.id] else [])
  {
    var r := Track(s, dom, link);
    if link.id in dom {
      var o := |s.host.observed|;
      assert r.host.observed == s.host.observed + [link.id];
      assert o !in s.observerStops by {
        assert o !in s.host.live;
      }
      forall i | 0 <= i < |s.observerStops|
        ensures ObservedIds(r.host, r.observerStops)[i] == ObservedIds(s.host, s.observerStops)[i]
      {
        assert s.observerStops[i] in s.host.live;
      }
      assert ObservedIds(r.host, r.observerStops) == ObservedIds(s.host, s.observerStops) + [link.id];
    }
  }

  /** Tracking registers one live observer per link whose element exists, in link order. */
  lemma {:induction false} TrackAllSpec(s: State, dom: Document, links: seq<TocLink>)
    requires Sound(s, dom)
    ensures var r := TrackAll(s, dom, links);
      && Sound(r, dom) && SameRefs(s, r)
      && ObservedIds(r.host, r.observerStops) == ObservedIds(s.host, s.observerStops) + Resolvable(links, dom)
      && |r.observerStops| == |s.observerStops| + |Resolvable(links, dom)|
  {
    if links != [] {
      var init, last := links[..|links| - 1], links[|links| - 1];
      TrackAllSpec(s, dom, init);
      TrackSpec(TrackAll(s, dom, init), dom, last);
    }
  }

  /** Tracking never touches the active link or the override, whatever the state. */
  lemma {:induction false} TrackAllRefs(s: State, dom: Document, links: seq<TocLink>)
    ensures TrackAll(s, dom, links).activeLink == s.activeLink
    ensures TrackAll(s, dom, links).userClicked == s.userClicked
  {
    if links != [] {
      TrackAllRefs(s, dom, links[..|links| - 1]);
    }
  }

  /**
   * initToc: nothing happens off the client or with no links; otherwise the
   * first link becomes active if none is, the links are tracked, and a
   * teardown is returned (the second component).
   */
  function Initialized(s: State, links: seq<TocLink>, dom: Document, client: bool): (r: (State, bool))
    ensures (!client || |links| == 0) ==> r == (s, false)
    ensures client && |links| > 0 ==>
      r.1 && r.0.activeLink == (if s.activeLink == "" then links[0].id else s.activeLink)
    ensures r.0.userClicked == s.userClicked
  {
    if !client || |links| == 0 then (s, false)
    else
      var s1 := if s.activeLink == "" then s.(activeLink := links[0].id) else s;
      var r := TrackAll(s1, dom, links);
      TrackAllRefs(s1, dom, links);
      (r, true)
  }

  /** On mount, one observer per link whose element exists, in link order. */
  lemma InitObservesResolvable(s: State, links: seq<TocLink>, dom: Document)
    requires Sound(s, dom) && |links| > 0
    ensures var r := Initialized(s, links, dom, true).0;
      && ObservedIds(r.host, r.observerStops) == ObservedIds(s.host, s.observerStops) + Resolvable(links, dom)
      && |r.observerStops| == |s.observerStops| + |Resolvable(links, dom)|
      && Sound(r, dom)
  {
    var s1 := if s.activeLink == "" then s.(activeLink := links[0].id) else s;
    TrackAllSpec(s1, dom, links);
  }

  /**
   * The intersection callback: a live observer's intersecting entry moves
   * the highlight unless overridden. An empty entry list makes the
   * callback's destructuring throw before it changes anything.
   */
  function Intersected(s: State, observer: nat, entries: seq<bool>): (r: State)
    ensures r == s.(activeLink := r.activeLink)
    ensures r.activeLink != s.activeLink ==>
              && observer in s.host.live && observer < |s.host.observed| && !s.userClicked
              && |entries| > 0 && entries[0] && r.activeLink == s.host.observed[observer]
    ensures observer !in s.host.live ==> r == s
    ensures (observer in s.host.live && observer < |s.host.observed| && !s.userClicked &&
             |entries| > 0 && entries[0]) ==> r.activeLink == s.host.observed[observer]
  {
    if observer in s.host.live && observer < |s.host.observed| && !s.userClicked
       && |entries| > 0 && entries[0]
    then s.(activeLink := s.host.observed[observer])
    else s
  }

  /** scrollToHeading: the override is taken whether or not the heading exists; only the scroll needs it. */
  function ScrolledTo(s: State, dom: Document, id: string): (r: State)
    ensures r.activeLink == id && r.userClicked
    ensures r.host.scrolls == s.host.scrolls + (if id in dom then [id] else [])
    ensures r.observerStops == s.observerStops && r.host.live == s.host.live
    ensures r.host.observed == s.host.observed
    ensures r.clickTimeout.Some? && r.clickTimeout.value in r.host.timers
    ensures Sound(s, dom) ==>
      && r.host.timers == map[r.clickTimeout.value := OverrideMs]
      && (s.clickTimeout.Some? ==> s.clickTimeout.value != r.clickTimeout.value)
  {
    var h1 := if GetElementById(dom, id).Some? then ScrollIntoView(s.host, id) else s.host;
    var h2 := if s.clickTimeout.Some? then ClearTimeout(h1, s.clickTimeout.value) else h1;
    var (h3, t) := SetTimeout(h2, OverrideMs);
    assert TimerInSlot(s.host, s.clickTimeout) ==> h2.timers == map[] by {
      if TimerInSlot(s.host, s.clickTimeout) { ClearingSlotClearsAll(s.host, s.clickTimeout); }
    }
    s.(activeLink := id, userClicked := true, clickTimeout := Some(t), host := h3)
  }

  /** The override timer's callback: a pending timer ends the override, and does nothing else. */
  function Expired(s: State, timer: nat): (r: State)
    ensures timer in s.host.timers ==> r == s.(userClicked := false, host := s.host.(timers := s.host.timers - {timer}))
    ensures timer !in s.host.timers ==> r == s
  {
    if timer in s.host.timers then s.(userClicked := false, host := Fire(s.host, timer)) else s
  }

  /** The teardown closure returned by initToc. */
  function TornDown(s: State): (r: State)
    ensures ObserversHeld(s.host, s.observerStops) ==> r.host.live == {}
    ensures TimerInSlot(s.host, s.clickTimeout) ==> r.host.timers == map[]
    ensures r.observerStops == []
    ensures r.activeLink == s.activeLink && r.userClicked == s.userClicked && r.clickTimeout == s.clickTimeout
    ensures r.host == s.host.(live := r.host.live, timers := r.host.timers)
  {
    var h1 := StopAll(s.host, s.observerStops);
    StopAllSpec(s.host, s.observerStops);
    var h2 := if s.clickTimeout.Some? then ClearTimeout(h1, s.clickTimeout.value) else h1;
    s.(observerStops := [], host := h2)
  }

  /** Everything that can happen to a mounted scroll-spy. */
  datatype Event =
    | Mount                                        // onMounted runs initToc
    | Intersect(observer: nat, entries: seq<bool>) // an observer reports its entries' isIntersecting
    | Jump(id: string)                             // a TOC entry calls scrollToHeading(id)
    | TimerExpiry(timer: nat)                      // the host runs a due timer
    | Teardown                                     // the cleanup closure runs

  function Step(s: State, links: seq<TocLink>, dom: Document, client: bool, e: Event): State
  {
    match e
    case Mount => Initialized(s, links, dom, client).0
    case Intersect(o, entries) => Intersected(s, o, entries)
    case Jump(id) => ScrolledTo(s, dom, id)
    case TimerExpiry(t) => Expired(s, t)
    case Teardown => TornDown(s)
  }

  function Run(s: State, links: seq<TocLink>, dom: Document, client: bool, events: seq<Event>): State
    decreases |events|
  {
    if events == [] then s else Run(Step(s, links, dom, client, events[0]), links, dom, client, events[1..])
  }

  lemma InitialSound(dom: Document)
    ensures Sound(Initial, dom)
  {
  }

  /** Every event keeps the invariant. */
  lemma StepSound(s: State, links: seq<TocLink>, dom: Document, client: bool, e: Event)
    requires Sound(s, dom)
    ensures Sound(Step(s, links, dom, client, e), dom)
  {
    match e
    case Mount =>
      if client && |links| > 0 {
        var s1 := if s.activeLink == "" then s.(activeLink := links[0].id) else s;
        TrackAllSpec(s1, dom, links);
      }
    case Intersect(o, entries) =>
    case Jump(id) =>
    case TimerExpiry(t) =>
    case Teardown =>
  }

  lemma {:induction false} RunSound(s: State, links: seq<TocLink>, dom: Document, client: bool, events: seq<Event>)
    requires Sound(s, dom)
    ensures Sound(Run(s, links, dom, client, events), dom)
    decreases |events|
  {
    if events != [] {
      StepSound(s, links, dom, client, events[0]);
      RunSound(Step(s, links, dom, client, events[0]), links, dom, client, events[1..]);
    }
  }

  /** While the override holds, no intersection moves the highlight. */
  lemma OverrideSuppresses(s: State, observer: nat, entries: seq<bool>)
    requires s.userClicked
    ensures Intersected(s, observer, entries) == s
  {
  }

  /** Observer and timer callbacks only: the events that may still arrive after teardown. */
  predicate Callback(e: Event)
  {
    e.Intersect? || e.TimerExpiry?
  }

  /** After teardown no late observer or timer callback changes anything. */
  lemma TornDownInert(s: State, links: seq<TocLink>, dom: Document, client: bool, events: seq<Event>)
    requires ObserversHeld(s.host, s.observerStops) && TimerInSlot(s.host, s.clickTimeout)
    requires forall i :: 0 <= i < |events| ==> Callback(events[i])
    ensures Run(TornDown(s), links, dom, client, events) == TornDown(s)
  {
    TornDownInertFrom(TornDown(s), links, dom, client, events);
  }

  lemma {:induction false} TornDownInertFrom(d: State, links: seq<TocLink>, dom: Document, client: bool, events: seq<Event>)
    requires d.host.live == {} && d.host.timers == map[]
    requires forall i :: 0 <= i < |events| ==> Callback(events[i])
    ensures Run(d, links, dom, client, events) == d
    decreases |events|
  {
    if events != [] {
      assert Step(d, links, dom, client, events[0]) == d;
      TornDownInertFrom(d, links, dom, client, events[1..]);
    }
  }

  /**
   * A jump, even to a missing heading, holds the highlight until its timer
   * fires; after that an intersecting heading takes the highlight again.
   */
  lemma OverrideEnds(s: State, dom: Document, id: string, observer: nat)
    requires Sound(s, dom) && observer in s.host.live
    ensures var r := ScrolledTo(s, dom, id);
      && Intersected(r, observer, [true]).activeLink == id
      && var e := Expired(r, r.clickTimeout.value);
         && !e.userClicked && e.activeLink == id
         && Intersected(e, observer, [true]).activeLink == s.host.observed[observer]
  {
  }

  /**
   * The composable returned by `useToc(links)`: its refs as fields, the
   * browser state as `host`, and the lifecycle hooks as methods.
   */
  class Toc {
    const links: seq<TocLink>
    const dom: Document     // ids of the rendered elements
    const client: bool         // import.meta.client
    var activeLink: string
    var userClicked: bool
    var clickTimeout: Option<nat>
    var observerStops: seq<nat>
    var host: Host
    var cleanup: bool          // whether onMounted registered the teardown with onBeforeUnmount

    function Model(): State
      reads this
    {
      State(activeLink, userClicked, clickTimeout, observerStops, host)
    }

    ghost predicate Valid()
      reads this
    {
      Sound(Model(), dom)
    }

    constructor (links: seq<TocLink>, dom: Document, client: bool)
      ensures Valid() && Model() == Initial && !cleanup
      ensures this.links == links && this.dom == dom && this.client == client
    {
      this.links, this.dom, this.client := links, dom, client;
      activeLink, userClicked, clickTimeout := "", false, None;
      observerStops, host := [], EmptyHost;
      cleanup := false;
      InitialSound(dom);
    }

    method InitToc() returns (hasCleanup: bool)
      requires Valid()
      modifies this
      ensures Valid() && cleanup == old(cleanup)
      ensures (Model(), hasCleanup) == Initialized(old(Model()), links, dom, client)
    {
      if !client || |links| == 0 {
        return false;
      }
      if activeLink == "" {
        activeLink := links[0].id;
      }
      ghost var start := Model();
      var i := 0;
      while i < |links|
        invariant 0 <= i <= |links|
        invariant Model() == TrackAll(start, dom, links[..i])
        invariant Sound(Model(), dom)
        invariant cleanup == old(cleanup)
      {
        TrackLink(links[i]);
        assert links[..i + 1][..i] == links[..i];
        i := i + 1;
      }
      assert links[..i] == links;
      hasCleanup := true;
      StepSound(old(Model()), links, dom, client, Event.Mount);
    }

    /** The `links.forEach` callback of initToc: observe the link's element if it exists. */
    method TrackLink(link: TocLink)
      requires Sound(Model(), dom)
      modifies this`host, this`observerStops
      ensures Sound(Model(), dom)
      ensures Model() == Track(old(Model()), dom, link)
    {
      var el := GetElementById(dom, link.id);
      if el.Some? {
        var (h, stop) := Observe(host, link.id);
        host := h;
        observerStops := observerStops + [stop];
      }
      TrackSpec(old(Model()), dom, link);
    }

    /** The callback of observer `observer`; the host calls it only while the observer is live. */
    method OnIntersection(observer: nat, entries: seq<bool>)
      requires Valid()
      modifies this`activeLink
      ensures Valid()
      ensures Model() == Intersected(old(Model()), observer, entries)
    {
      if observer in host.live && observer < |host.observed| && |entries| > 0 {
        var linkId := host.observed[observer];
        var isIntersecting := entries[0];
        if !userClicked && isIntersecting {
          activeLink := linkId;
        }
      }
      StepSound(old(Model()), links, dom, client, Intersect(observer, entries));
    }

    method ScrollToHeading(id: string)
      requires Valid()
      modifies this
      ensures Valid() && cleanup == old(cleanup)
      ensures Model() == ScrolledTo(old(Model()), dom, id)
    {
      var el := GetElementById(dom, id);
      if el.Some? {
        host := ScrollIntoView(host, id);
      }
      activeLink := id;
      userClicked := true;
      if clickTimeout.Some? {
        host := ClearTimeout(host, clickTimeout.value);
      }
      var (h, t) := SetTimeout(host, OverrideMs);
      host, clickTimeout := h, Some(t);
      StepSound(old(Model()), links, dom, client, Jump(id));
    }

    /** The host runs timer `timer`: a pending one resets the override. */
    method OnTimer(timer: nat)
      requires Valid()
      modifies this`userClicked, this`host
      ensures Valid()
      ensures Model() == Expired(old(Model()), timer)
    {
      if timer in host.timers {
        host := Fire(host, timer);
        userClicked := false;
      }
      StepSound(old(Model()), links, dom, client, TimerExpiry(timer));
    }

    /** The teardown closure that initToc returns. */
    method Teardown()
      requires Valid()
      modifies this
      ensures Valid() && cleanup == old(cleanup)
      ensures Model() == TornDown(old(Model()))
    {
      var i := 0;
      while i < |observerStops|
        invariant 0 <= i <= |observerStops|
        invariant Model() == old(Model()).(host := StopAll(old(host), observerStops[..i]))
        invariant cleanup == old(cleanup)
      {
        host := Stop(host, observerStops[i]);
        assert observerStops[..i + 1][..i] == observerStops[..i];
        i := i + 1;
      }
      assert observerStops[..i] == observerStops;
      observerStops := [];
      if clickTimeout.Some? {
        host := ClearTimeout(host, clickTimeout.value);
      }
      StepSound(old(Model()), links, dom, client, Event.Teardown);
    }

    /** onMounted: run initToc and register its cleanup, if any, for unmounting. */
    method Mount()
      requires Valid()
      modifies this
      ensures Valid()
      ensures (Model(), cleanup) == Initialized(old(Model()), links, dom, client)
    {
      var c := InitToc();
      cleanup := c;
    }

    /** onBeforeUnmount: the registered cleanup runs. */
    method Unmount()
      requires Valid()
      modifies this
      ensures Valid() && cleanup == old(cleanup)
      ensures Model() == if old(cleanup) then TornDown(old(Model())) else old(Model())
    {
      if cleanup {
        Teardown();
      }
    }
  }
}
