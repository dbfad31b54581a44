/**
 * The browser as the scroll-spy sees it: a fixed set of element ids, the
 * intersection observers created so far, the pending timers and the
 * scroll requests made. Both variants of the TOC composable share it.
 */
module TocHost {
  import opened Wrappers

  /** A heading anchor of the table of contents; links come in document order. */
  datatype TocLink = TocLink(id: string)

  /** A rendered element, known by its id attribute. */
  datatype Element = Element(id: string)

  /** Delay, in milliseconds, of the timer that ends a manual override. */
  const OverrideMs: nat := 2000

  /** Options given to every intersection observer (geometry is not modelled). */
  const ObserverThresholds: seq<real> := [0.1, 0.5]
  const ObserverRootMargin: string := "-10% 0px -70% 0px"

  /**
   * The ids of a document's elements. An element whose id attribute is
   * empty has no ID, so the empty string is never among them.
   */
  type Document = d: set<string> | "" !in d

  /** `document.getElementById` over a document whose element ids are `dom`; the empty id finds nothing. */
  function GetElementById(dom: Document, id: string): (r: Option<Element>)
    ensures r.Some? <==> id != "" && id in dom
    ensures r.Some? ==> r.value.id == id
  {
    if id in dom then Some(Element(id)) else None
  }

  /** The ids of the links in order. */
  function LinkIds(links: seq<TocLink>): (ids: seq<string>)
    ensures |ids| == |links|
    ensures forall k :: 0 <= k < |links| ==> ids[k] == links[k].id
  {
    seq(|links|, k requires 0 <= k < |links| => links[k].id)
  }

  /** The ids of the links whose element exists, in link order. */
  function Resolvable(links: seq<TocLink>, dom: Document): seq<string>
  {
    if links == [] then []
    else
      var last := links[|links| - 1];
      Resolvable(links[..|links| - 1], dom) + (if last.id in dom then [last.id] else [])
  }

  /** Resolvable keeps exactly the links present in the document, never more than there are. */
  lemma {:induction false} ResolvableSpec(links: seq<TocLink>, dom: Document)
    ensures |Resolvable(links, dom)| <= |links|
    ensures forall x :: x in Resolvable(links, dom) <==>
                        x in dom && exists k :: 0 <= k < |links| && links[k].id == x
  {
    if links != [] {
      var init := links[..|links| - 1];
      ResolvableSpec(init, dom);
      forall x
        ensures x in Resolvable(links, dom) <==>
                x in dom && exists k :: 0 <= k < |links| && links[k].id == x
      {
        if x in dom && (exists k :: 0 <= k < |links| && links[k].id == x) {
          var k :| 0 <= k < |links| && links[k].id == x;
          if k < |init| {
            assert init[k] == links[k];
          }
        }
        if x in Resolvable(init, dom) {
          var k :| 0 <= k < |init| && init[k].id == x;
          assert links[k] == init[k];
        }
      }
    }
  }

  /** When every heading is in the document, every link is resolvable, in order. */
  lemma {:induction false} ResolvableAll(links: seq<TocLink>, dom: Document)
    requires forall k :: 0 <= k < |links| ==> links[k].id in dom
    ensures Resolvable(links, dom) == LinkIds(links)
  {
    if links != [] {
      ResolvableAll(links[..|links| - 1], dom);
      assert LinkIds(links) == LinkIds(links[..|links| - 1]) + [links[|links| - 1].id];
    }
  }

  /**
   * Browser-side bookkeeping. An observer's handle is its index in
   * `observed`, which records the link id its callback was built for.
   */
  datatype Host = Host(
    observed: seq<string>,    // link id of every observer ever created, by handle
    live: set<nat>,           // handles of observers not yet stopped
    timers: map<nat, nat>,    // pending timers: handle -> delay in ms
    nextTimer: nat,           // the handle the next setTimeout returns
    scrolls: seq<string>)     // ids of the elements asked to scroll into view, oldest first

  /** A fresh page: nothing observed, nothing pending; timer handles are positive. */
  const EmptyHost: Host := Host([], {}, map[], 1, [])

  /** Live observers and pending timers all carry handles that have been handed out. */
  ghost predicate HostValid(h: Host)
  {
    && (forall o :: o in h.live ==> o < |h.observed|)
    && (forall t :: t in h.timers ==> 0 < t < h.nextTimer)
    && 0 < h.nextTimer
  }

  /** useIntersectionObserver: a new live observer for the callback of `linkId`. */
  function Observe(h: Host, linkId: string): (Host, nat)
  {
    (h.(observed := h.observed + [linkId], live := h.live + {|h.observed|}), |h.observed|)
  }

  /** The `stop` returned by useIntersectionObserver. */
  function Stop(h: Host, o: nat): Host
  {
    h.(live := h.live - {o})
  }

  /** Calls `stop` for every handle of `stops`, first to last. */
  function StopAll(h: Host, stops: seq<nat>): Host
  {
    if stops == [] then h else Stop(StopAll(h, stops[..|stops| - 1]), stops[|stops| - 1])
  }

  /** StopAll stops exactly the given observers and touches nothing else. */
  lemma {:induction false} StopAllSpec(h: Host, stops: seq<nat>)
    ensures StopAll(h, stops) == h.(live := h.live - set i | 0 <= i < |stops| :: stops[i])
  {
    if stops != [] {
      var init := stops[..|stops| - 1];
      StopAllSpec(h, init);
      var all := set i | 0 <= i < |stops| :: stops[i];
      var before := set i | 0 <= i < |init| :: init[i];
      assert all == before + {stops[|stops| - 1]} by {
        forall x | x in all ensures x in before + {stops[|stops| - 1]} {
          var i :| 0 <= i < |stops| && stops[i] == x;
          if i < |init| { assert init[i] == x; }
        }
        forall x | x in before ensures x in all {
          var i :| 0 <= i < |init| && init[i] == x;
          assert stops[i] == x;
        }
      }
    }
  }

  /** setTimeout: a new pending timer with the given delay. */
  function SetTimeout(h: Host, delay: nat): (Host, nat)
  {
    (h.(timers := h.timers[h.nextTimer := delay], nextTimer := h.nextTimer + 1), h.nextTimer)
  }

  /** clearTimeout: a cleared timer will not fire; clearing a spent handle does nothing. */
  function ClearTimeout(h: Host, t: nat): Host
  {
    h.(timers := h.timers - {t})
  }

  /** The host runs a due timer once and forgets it. */
  function Fire(h: Host, t: nat): Host
  {
    h.(timers := h.timers - {t})
  }

  /** element.scrollIntoView: only the request is recorded, not the animation. */
  function ScrollIntoView(h: Host, id: string): Host
  {
    h.(scrolls := h.scrolls + [id])
  }

  /** The link ids that the observers behind `stops` report for, in registration order. */
  function ObservedIds(h: Host, stops: seq<nat>): (ids: seq<string>)
    ensures |ids| == |stops|
  {
    seq(|stops|, i requires 0 <= i < |stops| =>
      if stops[i] < |h.observed| then h.observed[stops[i]] else "")
  }

  /** The live observers are exactly those whose stop is held. */
  ghost predicate ObserversHeld(h: Host, stops: seq<nat>)
  {
    && (forall i :: 0 <= i < |stops| ==> stops[i] in h.live)
    && (forall o :: o in h.live ==> o in stops)
  }

  /**
   * At most one timer is pending, and it is the one in the slot, which
   * holds a handle the host has handed out.
   */
  ghost predicate TimerInSlot(h: Host, slot: Option<nat>)
  {
    && (forall t :: t in h.timers ==> slot == Some(t))
    && (slot.Some? ==> slot.value < h.nextTimer)
  }

  /** Clearing the slot's timer leaves no timer pending. */
  lemma ClearingSlotClearsAll(h: Host, slot: Option<nat>)
    requires TimerInSlot(h, slot)
    ensures (if slot.Some? then h.timers - {slot.value} else h.timers) == map[]
  {
  }

  /** Never more than one timer is pending. */
  lemma AtMostOneTimer(h: Host, slot: Option<nat>)
    requires TimerInSlot(h, slot)
    ensures |h.timers| <= 1
  {
    if slot.Some? {
      var v := slot.value;
      assert h.timers.Keys <= {v};
      if v in h.timers {
        assert h.timers.Keys == {v};
      } else {
        assert h.timers.Keys == {};
      }
    } else {
      assert h.timers.Keys == {};
    }
  }
}
