/**
 * How the two scroll-spy variants relate: forgetting the element cache,
 * they take the same steps on every event except a jump to a heading the
 * document lacks, which the cached variant ignores and the other obeys.
 */
module TocVariants {
  import opened TocHost
  import App = AppToc
  import Legacy = LegacyToc

  /** The cacheless state an app state corresponds to. */
  function Forget(s: App.State): Legacy.State
  {
    Legacy.State(s.activeLink, s.userClicked, s.clickTimeout, s.observerStops, s.host)
  }

  lemma {:induction false} TrackAllAgree(s: App.State, dom: Document, links: seq<TocLink>)
    requires App.CacheHits(s.elementCache, dom)
    ensures App.CacheHits(App.TrackAll(s, dom, links).elementCache, dom)
    ensures Forget(App.TrackAll(s, dom, links)) == Legacy.TrackAll(Forget(s), dom, links)
  {
    if links != [] {
      TrackAllAgree(s, dom, links[..|links| - 1]);
    }
  }

  /** Mounting does the same in both variants: same highlight, same observers. */
  lemma InitAgree(s: App.State, links: seq<TocLink>, dom: Document, client: bool)
    requires App.CacheHits(s.elementCache, dom)
    ensures var (a, ca) := App.Initialized(s, links, dom, client);
      var (l, cl) := Legacy.Initialized(Forget(s), links, dom, client);
      Forget(a) == l && ca == cl
  {
    if client && |links| > 0 {
      var s1 := if s.activeLink == "" then s.(activeLink := links[0].id) else s;
      TrackAllAgree(s1, dom, links);
    }
  }

  /** A jump to a heading of the document does the same in both variants. */
  lemma JumpToPresentAgrees(s: App.State, dom: Document, id: string)
    requires App.CacheHits(s.elementCache, dom) && id in dom
    ensures Forget(App.ScrolledTo(s, dom, id)) == Legacy.ScrolledTo(Forget(s), dom, id)
  {
  }

  /**
   * A jump to a missing heading: the cached variant changes nothing, the
   * cacheless one highlights the missing id and starts an override, and
   * neither scrolls.
   */
  lemma JumpToMissingDiffers(s: App.State, links: seq<TocLink>, dom: Document, id: string)
    requires App.Inv(s, links, dom) && id !in dom
    ensures App.ScrolledTo(s, dom, id) == s
    ensures var l := Legacy.ScrolledTo(Forget(s), dom, id);
      && l.activeLink == id && l.userClicked
      && l.host.scrolls == s.host.scrolls
      && (id != "" && (|links| == 0 || id != links[0].id) ==> !App.ActiveOk(l.activeLink, links, dom))
  {
  }

  /** Intersections, timer expiries and teardown do the same in both variants. */
  lemma CallbacksAgree(s: App.State, observer: nat, entries: seq<bool>, timer: nat)
    ensures Forget(App.Intersected(s, observer, entries)) == Legacy.Intersected(Forget(s), observer, entries)
    ensures Forget(App.Expired(s, timer)) == Legacy.Expired(Forget(s), timer)
    ensures Forget(App.TornDown(s)) == Legacy.TornDown(Forget(s))
  {
  }
}
