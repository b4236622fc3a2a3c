/**
 * The page head: the title, the description and keyword meta tags, the
 * canonical link, and the Open Graph and Twitter Card tags built from a
 * page's title, description, image, type and path.
 */
module Seo {
  import opened Wrappers
  import opened Text

  /** The `og:type` values a page may declare. */
  datatype PageType = Website | Article | Profile

  /** The content string of a page type. */
  function PageTypeName(t: PageType): string {
    match t
    case Website => "website"
    case Article => "article"
    case Profile => "profile"
  }

  /** The component's props; an omitted optional prop is `None`. */
  datatype SeoProps = SeoProps(
    title: string,
    description: string,
    image: Option<string>,
    pageType: Option<PageType>,
    url: Option<string>,
    keywords: Option<seq<string>>)

  const SiteUrl: string := "https://vhorizonproperties.com"
  const DefaultImage: string := "https://vhorizonproperties.com/og-image.jpg"
  const SiteName: string := "V Horizon Properties"

  const DefaultKeywords: seq<string> :=
    ["real estate", "properties", "buy property", "rent property", "Delhi properties", "V Horizon Properties"]

  /** `url ? siteUrl + url : siteUrl`: an omitted or empty path gives the site root. */
  function FullUrl(url: Option<string>): (r: string)
    ensures |SiteUrl| <= |r| && r[..|SiteUrl|] == SiteUrl
    ensures url.None? || url.value == "" ==> r == SiteUrl
    ensures url.Some? && url.value != "" ==> r[|SiteUrl|..] == url.value
  {
    if url.Some? && url.value != "" then SiteUrl + url.value else SiteUrl
  }

  /** `[...defaultKeywords, ...keywords].join(', ')`, with `keywords` defaulting to `[]`. */
  function AllKeywords(keywords: Option<seq<string>>): string {
    Join(DefaultKeywords + keywords.GetOr([]), ", ")
  }

  /** Where a tag sits in the head: each tag the component renders, once. */
  datatype TagKey =
    | TitleTag | DescriptionMeta | KeywordsMeta | CanonicalLink
    | OgType | OgTitle | OgDescription | OgImage | OgUrl | OgSiteName
    | TwitterCard | TwitterTitle | TwitterDescription | TwitterImage
    | RobotsMeta | AuthorMeta

  /** No two tags are written with the same attribute and value, so each tag can be told apart in the page. */
  lemma AttributeInjective(a: TagKey, b: TagKey)
    ensures Attribute(a) == Attribute(b) <==> a == b
  {
  }

  /** A rendered tag: its key and its text, `content` or `href`. */
  datatype Tag = Tag(key: TagKey, content: string)

  /** The attribute naming a tag in the HTML: `name=`, `property=` or `rel=`, and its value. */
  function Attribute(k: TagKey): (string, string) {
    match k
    case TitleTag => ("element", "title")
    case DescriptionMeta => ("name", "description")
    case KeywordsMeta => ("name", "keywords")
    case CanonicalLink => ("rel", "canonical")
    case OgType => ("property", "og:type")
    case OgTitle => ("property", "og:title")
    case OgDescription => ("property", "og:description")
    case OgImage => ("property", "og:image")
    case OgUrl => ("property", "og:url")
    case OgSiteName => ("property", "og:site_name")
    case TwitterCard => ("name", "twitter:card")
    case TwitterTitle => ("name", "twitter:title")
    case TwitterDescription => ("name", "twitter:description")
    case TwitterImage => ("name", "twitter:image")
    case RobotsMeta => ("name", "robots")
    case AuthorMeta => ("name", "author")
  }

  /** The text of the first tag with key `k`, if there is one. */
  function Content(tags: seq<Tag>, k: TagKey): (r: Option<string>)
    ensures r.None? <==> forall i :: 0 <= i < |tags| ==> tags[i].key != k
    ensures r.Some? ==> Tag(k, r.value) in tags
  {
    if tags == [] then None
    else if tags[0].key == k then Some(tags[0].content)
    else Content(tags[1..], k)
  }

  /** What the component puts into the head, in render order, with the prop defaults applied. */
  function SeoTags(p: SeoProps): (tags: seq<Tag>)
    ensures |tags| == 16
    ensures forall i, j :: 0 <= i < j < |tags| ==> tags[i].key != tags[j].key
  {
    var image := p.image.GetOr(DefaultImage);
    var fullUrl := FullUrl(p.url);
    [ Tag(TitleTag, p.title),
      Tag(DescriptionMeta, p.description),
      Tag(KeywordsMeta, AllKeywords(p.keywords)),
      Tag(CanonicalLink, fullUrl),
      Tag(OgType, PageTypeName(p.pageType.GetOr(Website))),
      Tag(OgTitle, p.title),
      Tag(OgDescription, p.description),
      Tag(OgImage, image),
      Tag(OgUrl, fullUrl),
      Tag(OgSiteName, SiteName),
      Tag(TwitterCard, "summary_large_image"),
      Tag(TwitterTitle, p.title),
      Tag(TwitterDescription, p.description),
      Tag(TwitterImage, image),
      Tag(RobotsMeta, "index, follow"),
      Tag(AuthorMeta, SiteName) ]
  }

  /** Every tag is rendered with exactly the text the head lists for it. */
  lemma {:induction false} ContentOfDistinct(tags: seq<Tag>, i: nat)
    requires i < |tags|
    requires forall a, b :: 0 <= a < b < |tags| ==> tags[a].key != tags[b].key
    ensures Content(tags, tags[i].key) == Some(tags[i].content)
    decreases |tags|
  {
    if i > 0 {
      assert tags[1..][i - 1] == tags[i];
      ContentOfDistinct(tags[1..], i - 1);
    }
  }

  /** The title is copied unchanged into the plain, Open Graph and Twitter tags. */
  lemma TitleCopied(p: SeoProps)
    ensures Content(SeoTags(p), TitleTag) == Some(p.title)
    ensures Content(SeoTags(p), OgTitle) == Some(p.title)
    ensures Content(SeoTags(p), TwitterTitle) == Some(p.title)
  {
    var tags := SeoTags(p);
    assert tags[0] == Tag(TitleTag, p.title);
    assert tags[5] == Tag(OgTitle, p.title);
    assert tags[11] == Tag(TwitterTitle, p.title);
    ContentOfDistinct(tags, 0);
    ContentOfDistinct(tags, 5);
    ContentOfDistinct(tags, 11);
  }

  /** The description is copied unchanged into the plain, Open Graph and Twitter tags. */
  lemma DescriptionCopied(p: SeoProps)
    ensures Content(SeoTags(p), DescriptionMeta) == Some(p.description)
    ensures Content(SeoTags(p), OgDescription) == Some(p.description)
    ensures Content(SeoTags(p), TwitterDescription) == Some(p.description)
  {
    var tags := SeoTags(p);
    assert tags[1] == Tag(DescriptionMeta, p.description);
    assert tags[6] == Tag(OgDescription, p.description);
    assert tags[12] == Tag(TwitterDescription, p.description);
    ContentOfDistinct(tags, 1);
    ContentOfDistinct(tags, 6);
    ContentOfDistinct(tags, 12);
  }

  /** The canonical link and `og:url` carry the same full URL. */
  lemma UrlTagsAgree(p: SeoProps)
    ensures Content(SeoTags(p), CanonicalLink) == Some(FullUrl(p.url))
    ensures Content(SeoTags(p), OgUrl) == Some(FullUrl(p.url))
  {
    var tags := SeoTags(p);
    assert tags[3] == Tag(CanonicalLink, FullUrl(p.url));
    assert tags[8] == Tag(OgUrl, FullUrl(p.url));
    ContentOfDistinct(tags, 3);
    ContentOfDistinct(tags, 8);
  }

  /** The image, as given or defaulted, goes to both the Open Graph and the Twitter tag. */
  lemma ImageDefaulted(p: SeoProps)
    ensures Content(SeoTags(p), OgImage) == Some(p.image.GetOr(DefaultImage))
    ensures Content(SeoTags(p), TwitterImage) == Some(p.image.GetOr(DefaultImage))
  {
    var tags := SeoTags(p);
    assert tags[7] == Tag(OgImage, p.image.GetOr(DefaultImage));
    assert tags[13] == Tag(TwitterImage, p.image.GetOr(DefaultImage));
    ContentOfDistinct(tags, 7);
    ContentOfDistinct(tags, 13);
  }

  /** The page type defaults to `website`; the keyword tag holds the joined keyword list. */
  lemma TypeAndKeywords(p: SeoProps)
    ensures Content(SeoTags(p), OgType) == Some(if p.pageType.None? then "website" else PageTypeName(p.pageType.value))
    ensures Content(SeoTags(p), KeywordsMeta) == Some(AllKeywords(p.keywords))
  {
    var tags := SeoTags(p);
    assert tags[4] == Tag(OgType, PageTypeName(p.pageType.GetOr(Website)));
    assert tags[2] == Tag(KeywordsMeta, AllKeywords(p.keywords));
    ContentOfDistinct(tags, 4);
    ContentOfDistinct(tags, 2);
  }

  /** The four tags that do not depend on the props carry fixed text. */
  lemma FixedTags(p: SeoProps)
    ensures Content(SeoTags(p), OgSiteName) == Some("V Horizon Properties")
    ensures Content(SeoTags(p), TwitterCard) == Some("summary_large_image")
    ensures Content(SeoTags(p), RobotsMeta) == Some("index, follow")
    ensures Content(SeoTags(p), AuthorMeta) == Some("V Horizon Properties")
  {
    var tags := SeoTags(p);
    assert tags[9] == Tag(OgSiteName, SiteName);
    assert tags[10] == Tag(TwitterCard, "summary_large_image");
    assert tags[14] == Tag(RobotsMeta, "index, follow");
    assert tags[15] == Tag(AuthorMeta, SiteName);
    ContentOfDistinct(tags, 9);
    ContentOfDistinct(tags, 10);
    ContentOfDistinct(tags, 14);
    ContentOfDistinct(tags, 15);
  }

  /** The six default keywords always come first; the caller's follow after one more separator. */
  lemma KeywordsExtendDefaults(keywords: Option<seq<string>>)
    ensures keywords.None? || keywords.value == [] ==> AllKeywords(keywords) == Join(DefaultKeywords, ", ")
    ensures keywords.Some? && keywords.value != [] ==>
      AllKeywords(keywords) == Join(DefaultKeywords, ", ") + ", " + Join(keywords.value, ", ")
  {
    if keywords.Some? && keywords.value != [] {
      JoinAppend(DefaultKeywords, keywords.value, ", ");
    } else {
      assert DefaultKeywords + keywords.GetOr([]) == DefaultKeywords;
    }
  }
}
