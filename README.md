# Scroll-spy and SEO metadata of the axi-blog article page, in Dafny

The repository is a personal blog. Two view-layer helpers hold its logic:

- The table-of-contents scroll-spy (`useToc`). It highlights the heading the reader has scrolled to. It lets a click on a TOC entry jump to a heading and hold the highlight for 2000 ms. It releases every observer and timer when the page unmounts. The source has it twice:
  - `app/composables/useToc.ts` memoises element lookups. It ignores a jump to a heading that is not in the document.
  - `composables/useToc.ts` looks elements up afresh each time. It still moves the highlight and starts the override on a jump to a missing heading, and skips only the scroll.
- The SEO helper (`useSeo`). It turns an article's front matter, the configured site URL, the route path and the current time into a page title, twelve meta tags in a fixed order and a canonical link.

## Layout

- `wrappers.dfy` (`Wrappers`): `Option`, and JavaScript's `||` on an optional string (`Truthy`, `OrElse`).
- `toc_host.dfy` (`TocHost`): the browser as the scroll-spy sees it.
  - The document is a fixed set of element ids.
  - Each intersection observer is a handle. `observed` records the link id its callback was built for, and `live` holds the observers not yet stopped.
  - Pending timers are a map from handle to delay.
  - Each `scrollIntoView` request is logged in `scrolls`.
  - This module also has the lemmas both variants share: what `Resolvable` keeps, what stopping all observers does, and that at most one timer is pending.
- `app_toc.dfy` (`AppToc`) and `legacy_toc.dfy` (`LegacyToc`): one module per variant.
  - Each has a `State` datatype of the composable's refs plus the host.
  - Each has pure transitions for the five events: mount (`Initialized`), an observer's callback (`Intersected`), a click (`ScrolledTo`), the override timer firing (`Expired`) and the cleanup closure (`TornDown`). The properties are proved about these transitions and their invariant.
  - Each has a class `Toc`. Its fields are the composable's refs, and its methods `InitToc`, `OnIntersection`, `ScrollToHeading`, `OnTimer`, `Teardown`, `Mount` and `Unmount` mirror the source step by step. Each method is proved to perform exactly its transition (`Model() == F(old(Model()))`) and to keep the invariant `Valid()`.
  - `InitToc` keeps the source's `forEach` as a loop over `links`. `Teardown` keeps its loop over the stops.
- `toc_variants.dfy` (`TocVariants`): relates the two variants. If you drop the cache, they take the same step on every event except a jump to a missing heading.
- `seo.dfy` (`Seo`): the derivations of `useSeo` and `getSeoMeta` as functions, plus lemmas about the emitted tags.

Inputs that the source takes from its environment are parameters here:

- `import.meta.client` is the `client` flag.
- The DOM is the `dom` id set, of type `Document`. An element whose id attribute is empty has no ID, so `""` is never in it and `getElementById("")` finds nothing.
- `isIntersecting` arrives with the callback event, as the list of entries the observer delivers.
- A timer's expiry is the explicit event `TimerExpiry(handle)`.
- `useRoute().path`, `useRuntimeConfig().public.siteUrl` and `new Date().toISOString()` are the `path`, `siteUrl` and `now` arguments.

Behaviour of the code worth knowing:

- Only the `app/` variant makes a jump to a missing heading a no-op. The other variant does not (`composables/useToc.ts:50-56`).
- Only the `app/` variant has a cache to clear on teardown.
- Neither variant breaks ties between headings that intersect at the same time. The last callback delivered wins, and no document-order policy is added.
- After the timer fires, and after teardown, `clickTimeout` keeps its spent handle. The code never resets it. Clearing a spent handle does nothing.

## Model

| member | source | states |
|---|---|---|
| `TocHost.GetElementById` | app/composables/useToc.ts:17 | an element is found exactly when the id is non-empty and in the document, and it carries that id |
| `TocHost.ResolvableSpec` | app/composables/useToc.ts:32-36 | the links that get an observer are exactly those whose id is in the document; there are never more of them than links |
| `TocHost.ResolvableAll` | app/composables/useToc.ts:32-36 | when every heading is rendered, every link is observed, in link order |
| `TocHost.StopAllSpec` | app/composables/useToc.ts:54 | calling every held `stop` removes exactly those observers from the live set and changes nothing else in the host |
| `TocHost.ClearingSlotClearsAll` | app/composables/useToc.ts:77-79 | while the only pending timer is the one in the slot, clearing the slot leaves no timer pending |
| `TocHost.AtMostOneTimer` | app/composables/useToc.ts:77-83 | at most one override timer is ever pending |
| `AppToc.Resolve` | app/composables/useToc.ts:13-22 | a hit returns the cached element and leaves the cache alone; a miss caches the element only if it exists; a failed lookup never changes the cache; with a cache of hits the result is the document's element and the cache still holds only hits |
| `AppToc.TrackSpec` | app/composables/useToc.ts:32-51 | one turn of the loop observes the link exactly when its element exists, caches it, and leaves the highlight, override and timers alone, keeping the invariant |
| `AppToc.TrackAllSpec` | app/composables/useToc.ts:32-51 | the loop registers one live observer per resolvable link, in link order (so the number of stops is the number of resolvable links); it caches exactly those ids and keeps the invariant |
| `AppToc.TrackAllRefs` | app/composables/useToc.ts:32-51 | the loop never touches `activeLink` or `userClicked` |
| `AppToc.Initialized` | app/composables/useToc.ts:24-30 | off the client or with no links nothing changes and no cleanup is returned; otherwise a cleanup is returned and the empty highlight becomes the first link's id (even if its element is missing), while a set one is kept |
| `AppToc.InitObservesResolvable` | app/composables/useToc.ts:32-51 | after mounting, the observers report for exactly the resolvable links, in order |
| `AppToc.Intersected` | app/composables/useToc.ts:39-43 | only `activeLink` can change; a callback from a stopped observer changes nothing; the highlight changes only to the observer's link id, and it becomes the observer's link id when the observer is live, the override is off and the first entry intersects; otherwise nothing changes |
| `AppToc.ScrolledTo` | app/composables/useToc.ts:64-84 | a missing id changes nothing at all; a present id is scrolled to and highlighted, the override is set, the old timer is cancelled and exactly one fresh 2000 ms timer is pending, with observers untouched |
| `AppToc.Expired` | app/composables/useToc.ts:81-83 | a pending timer clears `userClicked`, is consumed and changes nothing else; any other handle changes nothing |
| `AppToc.TornDown` | app/composables/useToc.ts:53-61 | no observer stays live, no timer stays pending, the stops and the cache are emptied, and the highlight and override are kept |
| `AppToc.InitialInv` | app/composables/useToc.ts:5-11 | the fresh composable satisfies the invariant |
| `AppToc.StepInv` | app/composables/useToc.ts:13-84 | every event keeps the invariant: live observers are exactly the held ones, on document elements; the only pending timer is the slot's; the cache holds only hits; the highlight is unset, the first link or a document id |
| `AppToc.RunInv` | app/composables/useToc.ts:86-96 | any sequence of events keeps the invariant |
| `AppToc.OverrideSuppresses` | app/composables/useToc.ts:40 | while `userClicked` holds, no intersection changes anything |
| `AppToc.TornDownInert` | app/composables/useToc.ts:53-61 | after teardown, no sequence of late observer or timer callbacks changes the state |
| `AppToc.TornDownInertFrom` | app/composables/useToc.ts:53-61 | with no live observer and no pending timer, callbacks change nothing |
| `AppToc.OverrideEnds` | app/composables/useToc.ts:74-83 | after a jump, intersections cannot move the highlight; once its timer fires the override is off and an intersecting heading takes the highlight again |
| `AppToc.Walkthrough` | app/composables/useToc.ts:24-51 | mounting three rendered headings a, b, c highlights a, returns a cleanup and observes a, b, c in order |
| `AppToc.WalkthroughAfterMount` | app/composables/useToc.ts:39-84 | b intersecting highlights b; a jump to c highlights c and holds it against a intersecting; after expiry a intersecting highlights a; a jump to a missing id changes nothing |
| `AppToc.WalkthroughRun` | app/composables/useToc.ts:24-84 | the whole scenario as one run from the fresh composable: mounting a, b, c highlights a; b intersecting highlights b; a jump to c holds c against a intersecting; after expiry a intersecting highlights a; a jump to a missing id changes nothing |
| `AppToc.Toc.constructor` | app/composables/useToc.ts:4-11 | refs start empty, with no cache and nothing registered |
| `AppToc.Toc.GetElement` | app/composables/useToc.ts:13-22 | returns the document's element for the id and updates the cache as `Resolve` does |
| `AppToc.Toc.InitToc` | app/composables/useToc.ts:24-62 | the loop over `links` performs exactly `Initialized` and keeps the invariant |
| `AppToc.Toc.TrackLink` | app/composables/useToc.ts:32-51 | the loop body (the `forEach` callback) performs exactly `Track` and keeps the invariant |
| `AppToc.Toc.OnIntersection` | app/composables/useToc.ts:39-43 | performs exactly `Intersected` |
| `AppToc.Toc.ScrollToHeading` | app/composables/useToc.ts:64-84 | performs exactly `ScrolledTo` |
| `AppToc.Toc.OnTimer` | app/composables/useToc.ts:81-83 | performs exactly `Expired` |
| `AppToc.Toc.Teardown` | app/composables/useToc.ts:53-61 | the loop over the stops performs exactly `TornDown` |
| `AppToc.Toc.Mount` | app/composables/useToc.ts:86-91 | runs initToc and registers its cleanup exactly when one is returned |
| `AppToc.Toc.Unmount` | app/composables/useToc.ts:86-91 | runs the cleanup only if it was registered |
| `LegacyToc.TrackSpec` | composables/useToc.ts:18-37 | one turn of the loop looks the element up directly and observes the link exactly when it exists, keeping the invariant |
| `LegacyToc.TrackAllSpec` | composables/useToc.ts:18-37 | one live observer per link whose element exists, in link order; the number of stops is the number of such links |
| `LegacyToc.TrackAllRefs` | composables/useToc.ts:18-37 | the loop never touches `activeLink` or `userClicked` |
| `LegacyToc.Initialized` | composables/useToc.ts:10-16 | off the client or with no links nothing changes and no cleanup is returned; otherwise the empty highlight becomes the first link's id, and a set one is kept |
| `LegacyToc.InitObservesResolvable` | composables/useToc.ts:18-37 | after mounting, the observers report for exactly the links whose element exists, in order |
| `LegacyToc.Intersected` | composables/useToc.ts:25-29 | only `activeLink` can change; a callback from a stopped observer changes nothing; the highlight changes only to a live observer's link id, only when not overridden and the first entry intersects, and then it does change to it; an empty entry list changes nothing |
| `LegacyToc.ScrolledTo` | composables/useToc.ts:49-65 | whether or not the element exists, the id is highlighted, the override is set and exactly one fresh 2000 ms timer replaces the old one; the scroll is requested only for an existing element |
| `LegacyToc.Expired` | composables/useToc.ts:62-64 | a pending timer clears `userClicked` and nothing else; a cleared or spent one changes nothing |
| `LegacyToc.TornDown` | composables/useToc.ts:39-46 | no observer stays live, no timer stays pending, the stops are emptied, and `activeLink` and `userClicked` are kept |
| `LegacyToc.InitialSound` | composables/useToc.ts:4-8 | the fresh composable satisfies the invariant |
| `LegacyToc.StepSound` | composables/useToc.ts:10-65 | every event keeps the invariant: live observers are exactly the held ones, on document elements; the only pending timer is the slot's |
| `LegacyToc.RunSound` | composables/useToc.ts:67-72 | any sequence of events keeps the invariant |
| `LegacyToc.OverrideSuppresses` | composables/useToc.ts:26 | while `userClicked` holds, no intersection changes anything |
| `LegacyToc.TornDownInert` | composables/useToc.ts:39-46 | after teardown, no sequence of late observer or timer callbacks changes the state |
| `LegacyToc.TornDownInertFrom` | composables/useToc.ts:39-46 | with no live observer and no pending timer, callbacks change nothing |
| `LegacyToc.OverrideEnds` | composables/useToc.ts:55-64 | after a jump, even to a missing heading, intersections cannot move the highlight; once its timer fires an intersecting heading takes it again |
| `LegacyToc.Toc.constructor` | composables/useToc.ts:4-8 | refs start empty, nothing registered |
| `LegacyToc.Toc.InitToc` | composables/useToc.ts:10-47 | the loop over `links` performs exactly `Initialized` and keeps the invariant |
| `LegacyToc.Toc.TrackLink` | composables/useToc.ts:18-37 | the loop body (the `forEach` callback) performs exactly `Track` and keeps the invariant |
| `LegacyToc.Toc.OnIntersection` | composables/useToc.ts:25-29 | performs exactly `Intersected` |
| `LegacyToc.Toc.ScrollToHeading` | composables/useToc.ts:49-65 | performs exactly `ScrolledTo` |
| `LegacyToc.Toc.OnTimer` | composables/useToc.ts:62-64 | performs exactly `Expired` |
| `LegacyToc.Toc.Teardown` | composables/useToc.ts:39-46 | the loop over the stops performs exactly `TornDown` |
| `LegacyToc.Toc.Mount` | composables/useToc.ts:67-72 | runs initToc and registers its cleanup exactly when one is returned |
| `LegacyToc.Toc.Unmount` | composables/useToc.ts:67-72 | runs the cleanup only if it was registered |
| `TocVariants.TrackAllAgree` | composables/useToc.ts:18-37 | without the cache, the cached loop does what the direct-lookup loop does |
| `TocVariants.InitAgree` | composables/useToc.ts:10-47 | mounting gives the same highlight, observers and cleanup in both variants |
| `TocVariants.JumpToPresentAgrees` | composables/useToc.ts:49-65 | a jump to a rendered heading takes the same step in both variants |
| `TocVariants.JumpToMissingDiffers` | composables/useToc.ts:50-56 | a jump to a missing heading: the cached variant changes nothing, the other highlights the missing id and sets the override without scrolling, leaving the cached variant's highlight invariant |
| `TocVariants.CallbacksAgree` | composables/useToc.ts:25-46 | intersections, timer expiries and teardown take the same step in both variants |
| `Seo.BaseUrl` | composables/useSeo.ts:9 | the configured site URL when it is set and non-empty, `https://helloaxi.me` otherwise; never empty |
| `Seo.CurrentUrl` | composables/useSeo.ts:10 | the base URL followed by the route path |
| `Seo.Title` | composables/useSeo.ts:12-15 | the page's title when it is non-empty, `文章详情` otherwise; never empty |
| `Seo.Description` | composables/useSeo.ts:17 | the page's description when it is non-empty, `文章详情页` otherwise; never empty |
| `Seo.PublishDate` | composables/useSeo.ts:18 | the page's date when it is non-empty, the current time otherwise |
| `Seo.Tags` | composables/useSeo.ts:19 | the page's tag list when present (even an empty one), the empty list otherwise |
| `Seo.TagList` | composables/useSeo.ts:31-32 | the tags joined with `", "`: empty for no tags, the tag itself for one |
| `Seo.JoinSnoc` | composables/useSeo.ts:31 | each further tag is appended after a `", "` separator |
| `Seo.JoinLength` | composables/useSeo.ts:31 | a join is as long as its elements plus one separator between each two |
| `Seo.GetSeoMeta` | composables/useSeo.ts:21-42 | the title is `Title`; there are exactly 12 meta tags with the fixed attributes and keys in the fixed order; the only link is the canonical one to the current URL |
| `Seo.LayoutKeysDistinct` | composables/useSeo.ts:24-37 | no meta key is emitted twice |
| `Seo.ContentFindsFirst` | composables/useSeo.ts:24-37 | looking up a key that no earlier tag carries finds the tag at its own position |
| `Seo.ContentAt` | composables/useSeo.ts:24-37 | each emitted key, looked up in the emitted tags, gives the content emitted under it |
| `Seo.MetaContents` | composables/useSeo.ts:22-40 | both title tags carry the title; all three description tags carry the description; `og:url` and the canonical link carry the current URL; `article:tag` and `keywords` both carry the joined tags; the publish time, type, site name and card are the source's values |
| `Seo.MissingPageDefaults` | composables/useSeo.ts:12-19 | with no page data, the title, description and keywords take their defaults and the date is the current time |

The helpers without a row of their own are specified by the rows above:
- `AppToc.Track` and `LegacyToc.Track`, the `forEach` callback (app/composables/useToc.ts:32-51, composables/useToc.ts:18-37), are specified by `TrackSpec`.
- `AppToc.TrackAll` and `LegacyToc.TrackAll`, the `forEach` loop, are specified by `TrackAllSpec` and `TrackAllRefs`.
- `Seo.Join`, `Array.prototype.join` (composables/useSeo.ts:31), is specified by `JoinSnoc`, `JoinLength` and `TagList`.
- The browser calls in `TocHost` stand for `new IntersectionObserver(...).observe` (`Observe`), the `stop` closure's `disconnect` (`Stop`, `StopAll`), `setTimeout` (`SetTimeout`), `clearTimeout` (`ClearTimeout`), a timer's expiry (`Fire`) and `scrollIntoView` (`ScrollIntoView`). They are specified through `StopAllSpec`, `ClearingSlotClearsAll`, `AtMostOneTimer` and the transition rows that use them.

## Left out

- Intersection geometry: the thresholds `[0.1, 0.5]` and the root margin `-10% 0px -70% 0px` are recorded as constants only. Whether an entry intersects is an input of the callback event.
- The `scrollIntoView` animation and its `behavior`/`block` options: only that a scroll was requested is recorded.
- Real time: `setTimeout`/`clearTimeout` are a map of pending handles with their delay. Expiry is an explicit event the host may deliver for a pending handle, so the model has no clock.
- Vue reactivity and lifecycle (`ref`, `computed`, `onMounted`, `onBeforeUnmount`): refs are plain fields. The hooks are the methods `Mount` and `Unmount`, which the framework calls once each.
- Changes to the document after lookup: the set of element ids is fixed, and ids are taken to be unique, so cache staleness cannot arise.
- Callbacks from stopped observers: the source's callback (app/composables/useToc.ts:39-43, composables/useToc.ts:25-29) has no liveness check. The model takes the browser never to deliver a callback from an observer that was disconnected, so `Intersected` ignores one. The observer half of `TornDownInert` rests on this assumption.
- A tie-break among headings that intersect at the same time: the source has none, and the events are taken in the order delivered.
- `LegacyToc.Intersected`: an empty entry list makes the source's destructuring `[{ isIntersecting }]` throw. The model treats the throw as "no change", because it happens before any assignment.
- `Seo.Title`, `Seo.TagList`: the title and the tags are taken to be strings. Template-string and `join` conversion of other values (numbers, `null`) is not modelled.
- content.config.ts, nuxt.config.ts and uno.config.ts are not part of this model. They are framework configuration and a content schema.
