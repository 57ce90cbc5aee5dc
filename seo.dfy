/** The `SEO` component (src/components/seo.js): from its props and the site
    metadata it computes the document's `lang`, title, title template and the
    list of meta tags handed to the head manager. */
module Seo {
  import opened Js

  /** `site.siteMetadata` as the static query returns it. */
  datatype SiteMetadata = SiteMetadata(title: string, description: string, author: string, siteUrl: string)

  /** A meta tag is keyed either by `name` or by `property`. */
  datatype MetaKey = Name(name: string) | Property(property: string)

  datatype MetaTag = MetaTag(key: MetaKey, content: string)

  /** The component's props; absent ones are `None` (`type` is `pageType` here). */
  datatype SeoProps = SeoProps(
    description: Option<string>,
    lang: Option<string>,
    meta: Option<seq<MetaTag>>,
    title: Option<string>,
    card: Option<string>,
    pageType: Option<string>,
    slug: Option<string>)

  /** The props of the `Helmet` element the component renders. */
  datatype Helmet = Helmet(lang: string, title: string, titleTemplate: string, meta: seq<MetaTag>)

  /** The keys of the built-in meta tags, in the order they are listed. */
  const BuiltInKeys: seq<MetaKey> := [
    Name("description"), Property("og:title"), Property("og:description"),
    Property("og:type"), Property("og:url"), Name("og:image"), Name("twitter:card"),
    Name("twitter:image"), Name("twitter:creator"), Name("twitter:title"),
    Name("twitter:description")]

  /** `SEO.defaultProps`: props left `undefined` take these values. */
  function WithDefaults(props: SeoProps): (p: SeoProps)
    // Given props are kept; absent ones take `en`, no extra tags and an empty description.
    ensures p.lang == (if props.lang.Some? then props.lang else Some("en"))
    ensures p.meta == (if props.meta.Some? then props.meta else Some([]))
    ensures p.description == (if props.description.Some? then props.description else Some(""))
    // The other props are untouched.
    ensures p.title == props.title && p.card == props.card && p.pageType == props.pageType && p.slug == props.slug
  {
    props.(lang := Some(props.lang.GetOr("en")),
           meta := Some(props.meta.GetOr([])),
           description := Some(props.description.GetOr("")))
  }

  /** The 11 built-in meta tags, for props to which the defaults have been
      applied. `defaultCard` is the URL of the bundled card image. The og:url
      content is the JavaScript expression `(slug && siteUrl + slug) || siteUrl`. */
  function BuiltInTags(props: SeoProps, site: SiteMetadata, defaultCard: string): (tags: seq<MetaTag>)
    // The keys come in fixed order.
    ensures |tags| == |BuiltInKeys|
    ensures forall i :: 0 <= i < |tags| ==> tags[i].key == BuiltInKeys[i]
    // The description falls back to the site's when it is empty or absent.
    ensures var d := if TruthyStr(props.description) then props.description.value else site.description;
      tags[0].content == tags[2].content == tags[10].content == d
    // The title falls back to the site's, in og:title and twitter:title alike.
    ensures var t := if TruthyStr(props.title) then props.title.value else site.title;
      tags[1].content == tags[9].content == t
    ensures tags[3].content == if TruthyStr(props.pageType) then props.pageType.value else "website"
    ensures tags[4].content == if TruthyStr(props.slug) then site.siteUrl + props.slug.value else site.siteUrl
    // og:image and twitter:image are the same card URL.
    ensures tags[5].content == tags[7].content
         == site.siteUrl + (if TruthyStr(props.card) then props.card.value else defaultCard)
    ensures tags[6].content == "summary_large_image" && tags[8].content == site.author
  {
    var metaDescription := OrElse(props.description, site.description);
    var title := OrElse(props.title, site.title);
    var urlAnd: Option<string> := if TruthyStr(props.slug) then Some(site.siteUrl + props.slug.value) else props.slug;
    var image := if TruthyStr(props.card) then site.siteUrl + props.card.value else site.siteUrl + defaultCard;
    assert TruthyStr(props.slug) ==> |site.siteUrl + props.slug.value| > 0;
    [
      MetaTag(Name("description"), metaDescription),
      MetaTag(Property("og:title"), title),
      MetaTag(Property("og:description"), metaDescription),
      MetaTag(Property("og:type"), OrElse(props.pageType, "website")),
      MetaTag(Property("og:url"), OrElse(urlAnd, site.siteUrl)),
      MetaTag(Name("og:image"), image),
      MetaTag(Name("twitter:card"), "summary_large_image"),
      MetaTag(Name("twitter:image"), image),
      MetaTag(Name("twitter:creator"), site.author),
      MetaTag(Name("twitter:title"), title),
      MetaTag(Name("twitter:description"), metaDescription)]
  }

  /** The rendered `Helmet` props: `lang` defaults to `en`; the title falls
      back to the site's; the built-in tags come first and the caller's tags
      follow unchanged. */
  function SeoHelmet(given: SeoProps, site: SiteMetadata, defaultCard: string): (h: Helmet)
    ensures h.lang == (if given.lang.Some? then given.lang.value else "en")
    ensures h.title == if TruthyStr(given.title) then given.title.value else site.title
    ensures h.titleTemplate == if TruthyStr(given.title) then "%s | " + site.author else site.title
    ensures |h.meta| == |BuiltInKeys| + |given.meta.GetOr([])|
    ensures h.meta[..|BuiltInKeys|] == BuiltInTags(WithDefaults(given), site, defaultCard)
    ensures h.meta[|BuiltInKeys|..] == given.meta.GetOr([])
  {
    var props := WithDefaults(given);
    var builtIn := BuiltInTags(props, site, defaultCard);
    var meta := builtIn + props.meta.value;
    assert meta[..|builtIn|] == builtIn && meta[|builtIn|..] == props.meta.value;
    Helmet(props.lang.value,
           OrElse(props.title, site.title),
           if TruthyStr(props.title) then "%s | " + site.author else site.title,
           meta)
  }

  /** The tags of the rendered head in terms of the props as given: an absent
      and an empty description both fall back to the site's, and the caller's
      tags never replace a built-in one. */
  lemma SeoHelmetTags(given: SeoProps, site: SiteMetadata, defaultCard: string)
    ensures var h := SeoHelmet(given, site, defaultCard);
      forall i :: 0 <= i < |BuiltInKeys| ==> h.meta[i].key == BuiltInKeys[i]
    ensures var h := SeoHelmet(given, site, defaultCard);
      var d := if TruthyStr(given.description) then given.description.value else site.description;
      h.meta[0].content == h.meta[2].content == h.meta[10].content == d
    ensures var h := SeoHelmet(given, site, defaultCard);
      h.title == h.meta[1].content == h.meta[9].content
  {
    var h := SeoHelmet(given, site, defaultCard);
    var tags := h.meta[..|BuiltInKeys|];
    forall i | 0 <= i < |BuiltInKeys|
      ensures h.meta[i] == tags[i]
    {
    }
  }
}
