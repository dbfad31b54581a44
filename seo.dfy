/**
 * The head metadata of an article page (composables/useSeo.ts): a title,
 * twelve meta tags in a fixed order and one canonical link, derived from
 * the page's front matter, the configured site URL, the route path and the
 * current time, with a default for every missing value.
 */
module Seo {
  import opened Wrappers

  /** The front matter the page reads; a field the page lacks is None. */
  datatype PageData = PageData(
    title: Option<string>,
    description: Option<string>,
    date: Option<string>,
    tags: Option<seq<string>>)

  /** Whether a meta tag is keyed by its `name` or its `property` attribute. */
  datatype MetaAttr = Name | Property

  datatype MetaTag = MetaTag(attr: MetaAttr, key: string, content: string)

  datatype LinkTag = LinkTag(rel: string, href: string)

  /** What getSeoMeta returns. */
  datatype SeoMeta = SeoMeta(title: string, meta: seq<MetaTag>, link: seq<LinkTag>)

  const DefaultSiteUrl: string := "https://helloaxi.me"
  const DefaultTitle: string := "文章详情"
  const DefaultDescription: string := "文章详情页"
  const SiteName: string := "Axi Blog"
  const TagSeparator: string := ", "

  /** The meta tags' attributes and keys, in the order they are emitted. */
  const MetaLayout: seq<(MetaAttr, string)> := [
    (Name, "description"),
    (Property, "og:title"),
    (Property, "og:description"),
    (Property, "og:url"),
    (Property, "og:type"),
    (Property, "article:published_time"),
    (Property, "article:tag"),
    (Name, "keywords"),
    (Property, "og:site_name"),
    (Name, "twitter:card"),
    (Name, "twitter:title"),
    (Name, "twitter:description")]

  /** The configured site URL, or the blog's own address when none is set. */
  function BaseUrl(siteUrl: Option<string>): (r: string)
    ensures r != ""
    ensures Truthy(siteUrl) ==> r == siteUrl.value
    ensures !Truthy(siteUrl) ==> r == DefaultSiteUrl
  {
    OrElse(siteUrl, DefaultSiteUrl)
  }

  /** The page's address: the base URL followed by the route path. */
  function CurrentUrl(siteUrl: Option<string>, path: string): (r: string)
    ensures |r| == |BaseUrl(siteUrl)| + |path|
    ensures r[..|BaseUrl(siteUrl)|] == BaseUrl(siteUrl) && r[|BaseUrl(siteUrl)|..] == path
  {
    BaseUrl(siteUrl) + path
  }

  /** The article's title, or the generic one when the page has none. */
  function Title(page: Option<PageData>): (r: string)
    ensures r != ""
    ensures page.Some? && Truthy(page.value.title) ==> r == page.value.title.value
    ensures !(page.Some? && Truthy(page.value.title)) ==> r == DefaultTitle
  {
    match page
    case None => DefaultTitle
    case Some(p) => OrElse(p.title, DefaultTitle)
  }

  /** The article's description, or the generic one when the page has none. */
  function Description(page: Option<PageData>): (r: string)
    ensures r != ""
    ensures page.Some? && Truthy(page.value.description) ==> r == page.value.description.value
    ensures !(page.Some? && Truthy(page.value.description)) ==> r == DefaultDescription
  {
    match page
    case None => DefaultDescription
    case Some(p) => OrElse(p.description, DefaultDescription)
  }

  /** The article's date, or `now` (the current time as an ISO string) when the page has none. */
  function PublishDate(page: Option<PageData>, now: string): (r: string)
    ensures page.Some? && Truthy(page.value.date) ==> r == page.value.date.value
    ensures !(page.Some? && Truthy(page.value.date)) ==> r == now
  {
    match page
    case None => now
    case Some(p) => OrElse(p.date, now)
  }

  /** The article's tags; a page without a tag list has none (an empty list is kept as it is). */
  function Tags(page: Option<PageData>): (r: seq<string>)
    ensures page.Some? && page.value.tags.Some? ==> r == page.value.tags.value
    ensures !(page.Some? && page.value.tags.Some?) ==> r == []
  {
    if page.Some? && page.value.tags.Some? then page.value.tags.value else []
  }

  /** Array.prototype.join on strings. */
  function Join(xs: seq<string>, sep: string): string
  {
    if xs == [] then ""
    else if |xs| == 1 then xs[0]
    else xs[0] + sep + Join(xs[1..], sep)
  }

  /** Joining builds the string left to right: each further element comes after a separator. */
  lemma {:induction false} JoinSnoc(xs: seq<string>, x: string, sep: string)
    requires xs != []
    ensures Join(xs + [x], sep) == Join(xs, sep) + sep + x
  {
    if |xs| == 1 {
      assert xs + [x] == [xs[0], x];
      assert [xs[0], x][1..] == [x];
    } else {
      JoinSnoc(xs[1..], x, sep);
      assert (xs + [x])[1..] == xs[1..] + [x];
    }
  }

  /** The length of a join: every element plus one separator between each two. */
  lemma {:induction false} JoinLength(xs: seq<string>, sep: string)
    requires xs != []
    ensures |Join(xs, sep)| == TotalLength(xs) + |sep| * (|xs| - 1)
  {
    if |xs| > 1 {
      JoinLength(xs[1..], sep);
    }
  }

  /** The summed length of the strings. */
  function TotalLength(xs: seq<string>): nat
  {
    if xs == [] then 0 else |xs[0]| + TotalLength(xs[1..])
  }

  /** The tag list as the `article:tag` and `keywords` contents show it. */
  function TagList(page: Option<PageData>): (r: string)
    ensures Tags(page) == [] ==> r == ""
    ensures |Tags(page)| == 1 ==> r == Tags(page)[0]
  {
    Join(Tags(page), TagSeparator)
  }

  /** getSeoMeta. */
  function GetSeoMeta(page: Option<PageData>, siteUrl: Option<string>, path: string, now: string): (r: SeoMeta)
    ensures r.title == Title(page)
    ensures |r.meta| == |MetaLayout| == 12
    ensures forall i :: 0 <= i < |r.meta| ==> (r.meta[i].attr, r.meta[i].key) == MetaLayout[i]
    ensures r.link == [LinkTag("canonical", CurrentUrl(siteUrl, path))]
  {
    var title, description := Title(page), Description(page);
    var url, tags := CurrentUrl(siteUrl, path), TagList(page);
    SeoMeta(
      title,
      [ MetaTag(Name, "description", description),
        MetaTag(Property, "og:title", title),
        MetaTag(Property, "og:description", description),
        MetaTag(Property, "og:url", url),
        MetaTag(Property, "og:type", "article"),
        MetaTag(Property, "article:published_time", PublishDate(page, now)),
        MetaTag(Property, "article:tag", tags),
        MetaTag(Name, "keywords", tags),
        MetaTag(Property, "og:site_name", SiteName),
        MetaTag(Name, "twitter:card", "summary_large_image"),
        MetaTag(Name, "twitter:title", title),
        MetaTag(Name, "twitter:description", description) ],
      [LinkTag("canonical", url)])
  }

  /** The content of the first meta tag with the given key. */
  function Content(meta: seq<MetaTag>, key: string): (r: Option<string>)
    ensures r.None? <==> forall i :: 0 <= i < |meta| ==> meta[i].key != key
    ensures r.Some? ==> exists i :: 0 <= i < |meta| && meta[i].key == key && meta[i].content == r.value
  {
    if meta == [] then None
    else if meta[0].key == key then Some(meta[0].content)
    else
      var r := Content(meta[1..], key);
      assert forall i :: 1 <= i < |meta| ==> meta[i] == meta[1..][i - 1];
      r
  }

  /** No key appears twice, so every tag is found by its key alone. */
  lemma LayoutKeysDistinct()
    ensures forall i, j :: 0 <= i < j < |MetaLayout| ==> MetaLayout[i].1 != MetaLayout[j].1
  {
  }

  /** A key that no earlier tag has finds the tag at its own position. */
  lemma {:induction false} ContentFindsFirst(meta: seq<MetaTag>, i: nat)
    requires i < |meta|
    requires forall j :: 0 <= j < i ==> meta[j].key != meta[i].key
    ensures Content(meta, meta[i].key) == Some(meta[i].content)
  {
    if i > 0 {
      assert meta[1..][i - 1] == meta[i];
      ContentFindsFirst(meta[1..], i - 1);
    }
  }

  /** In a page's meta tags, every key finds the tag emitted under it. */
  lemma ContentAt(page: Option<PageData>, siteUrl: Option<string>, path: string, now: string, i: nat)
    requires i < 12
    ensures var meta := GetSeoMeta(page, siteUrl, path, now).meta;
      Content(meta, MetaLayout[i].1) == Some(meta[i].content)
  {
    var meta := GetSeoMeta(page, siteUrl, path, now).meta;
    LayoutKeysDistinct();
    ContentFindsFirst(meta, i);
  }

  /**
   * What the tags say: titles and descriptions agree across the plain,
   * Open Graph and Twitter tags, the URL tag and the canonical link both
   * point at the current URL, and the tag list appears under both keys.
   */
  lemma MetaContents(page: Option<PageData>, siteUrl: Option<string>, path: string, now: string)
    ensures var r := GetSeoMeta(page, siteUrl, path, now);
      && Content(r.meta, "og:title") == Some(Title(page))
      && Content(r.meta, "twitter:title") == Some(Title(page))
      && Content(r.meta, "description") == Some(Description(page))
      && Content(r.meta, "og:description") == Some(Description(page))
      && Content(r.meta, "twitter:description") == Some(Description(page))
      && Content(r.meta, "og:url") == Some(r.link[0].href) == Some(CurrentUrl(siteUrl, path))
      && Content(r.meta, "article:published_time") == Some(PublishDate(page, now))
      && Content(r.meta, "article:tag") == Content(r.meta, "keywords") == Some(TagList(page))
      && Content(r.meta, "og:type") == Some("article")
      && Content(r.meta, "og:site_name") == Some(SiteName)
      && Content(r.meta, "twitter:card") == Some("summary_large_image")
  {
    ContentAt(page, siteUrl, path, now, 0);
    ContentAt(page, siteUrl, path, now, 1);
    ContentAt(page, siteUrl, path, now, 2);
    ContentAt(page, siteUrl, path, now, 3);
    ContentAt(page, siteUrl, path, now, 4);
    ContentAt(page, siteUrl, path, now, 5);
    ContentAt(page, siteUrl, path, now, 6);
    ContentAt(page, siteUrl, path, now, 7);
    ContentAt(page, siteUrl, path, now, 8);
    ContentAt(page, siteUrl, path, now, 9);
    ContentAt(page, siteUrl, path, now, 10);
    ContentAt(page, siteUrl, path, now, 11);
  }

  /** A page with nothing set gets every default, and the current time as its date. */
  lemma MissingPageDefaults(siteUrl: Option<string>, path: string, now: string)
    ensures var r := GetSeoMeta(None, siteUrl, path, now);
      && r.title == DefaultTitle
      && Content(r.meta, "description") == Some(DefaultDescription)
      && Content(r.meta, "article:published_time") == Some(now)
      && Content(r.meta, "keywords") == Some("")
  {
    MetaContents(None, siteUrl, path, now);
  }
}
