/** The `serialize` callback of the RSS feed in gatsby-config.js: each edge of
    the published, date-sorted `allBlogPost` query becomes one feed item. */
module GatsbyConfig {

  /** The fields the feed query selects for each post. */
  datatype FeedNode = FeedNode(excerpt: string, body: string, slug: string, title: string, date: string)

  /** One feed item. The callback returns `({}, edge.node, {...})`, a comma
      expression whose value is its last operand, so an item holds only these
      five fields and none of the node's others (such as `body`). */
  datatype FeedItem = FeedItem(title: string, description: string, date: string, url: string, guid: string)

  /** The item for one node. */
  function FeedItemOf(siteUrl: string, node: FeedNode): (item: FeedItem)
    ensures item.url == item.guid
  {
    FeedItem(node.title, node.excerpt, node.date, siteUrl + node.slug, siteUrl + node.slug)
  }

  /** `allBlogPost.edges.map(...)`: one item per edge, in edge order; each
      item's `url` and `guid` are both the site URL followed by the slug, and
      its title, description and date are the node's title, excerpt and date. */
  function Serialize(siteUrl: string, edges: seq<FeedNode>): (items: seq<FeedItem>)
    ensures |items| == |edges|
    ensures forall i :: 0 <= i < |edges| ==>
      && items[i].url == items[i].guid
      && siteUrl <= items[i].url && items[i].url[|siteUrl|..] == edges[i].slug
      && items[i].title == edges[i].title
      && items[i].description == edges[i].excerpt
      && items[i].date == edges[i].date
  {
    seq(|edges|, i requires 0 <= i < |edges| => FeedItemOf(siteUrl, edges[i]))
  }

  /** Serialising a concatenation serialises each part: the feed keeps the
      order of the query result. */
  lemma SerializeConcat(siteUrl: string, a: seq<FeedNode>, b: seq<FeedNode>)
    ensures Serialize(siteUrl, a + b) == Serialize(siteUrl, a) + Serialize(siteUrl, b)
  {
  }

  /** Posts with different slugs get different item URLs (and guids). */
  lemma DistinctSlugsDistinctGuids(siteUrl: string, edges: seq<FeedNode>, i: nat, j: nat)
    requires i < |edges| && j < |edges| && edges[i].slug != edges[j].slug
    ensures Serialize(siteUrl, edges)[i].guid != Serialize(siteUrl, edges)[j].guid
  {
    var items := Serialize(siteUrl, edges);
    assert items[i].guid[|siteUrl|..] == edges[i].slug;
    assert items[j].guid[|siteUrl|..] == edges[j].slug;
  }
}
