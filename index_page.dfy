/** The helpers of the home page (src/pages/index.js): the emoji in front of a
    post title, the label of a topic, the search toggle and the topic links. */
module IndexPage {
  import opened Js
  import GatsbyNode

  /** The video-camera emoji and a space, shown before live-stream posts. */
  const LiveEmoji: string := "\U{1F3A5} "

  /** `getEmoji(categories)`: the emoji iff the categories are given and include
      `live`; otherwise the empty string. */
  function GetEmoji(categories: Option<seq<string>>): (r: string)
    ensures r == LiveEmoji <==> categories.Some? && "live" in categories.value
    ensures r == "" <==> !(categories.Some? && "live" in categories.value)
  {
    if categories.None? then ""
    else if "live" in categories.value then LiveEmoji
    else ""
  }

  /** The label of a topic link: `javascript` is shown as `JavaScript`, every
      other category as it is. */
  function TopicLabel(category: string): (text: string)
    ensures text == category <==> category != "javascript"
    ensures text != category ==> text == "JavaScript"
  {
    if category == "javascript" then "JavaScript" else category
  }

  /** Two categories share a label only if they are `javascript` and `JavaScript`. */
  lemma TopicLabelCollision(a: string, b: string)
    requires a != b && TopicLabel(a) == TopicLabel(b)
    ensures {a, b} == {"javascript", "JavaScript"}
  {
  }

  /** `searchValue.length > 0` */
  function SearchOn(searchValue: string): (on: bool)
    ensures on <==> searchValue != ""
  {
    |searchValue| > 0
  }

  /** The posts the main column lists: the search results when search is on,
      otherwise the recently published posts (the results are then ignored). */
  function ListedPosts<T>(searchValue: string, recentlyPublished: seq<T>, results: seq<T>): (shown: seq<T>)
    ensures searchValue == "" ==> shown == recentlyPublished
    ensures searchValue != "" ==> shown == results
  {
    if SearchOn(searchValue) then results else recentlyPublished
  }

  /** The target of a topic link: `/posts/` and the kebab-cased category. */
  function TopicLink(kebabCase: string -> string, category: string): (link: string)
    ensures "/posts/" <= link && link[|"/posts/"|..] == kebabCase(category)
  {
    var link := "/posts/" + kebabCase(category);
    assert link[|"/posts/"|..] == kebabCase(category);
    link
  }

  /** A topic link is the category page's path without its trailing '/'. */
  lemma TopicLinkIsCategoryPathWithoutSlash(kebabCase: string -> string, category: string)
    ensures GatsbyNode.CategoryPagePath(kebabCase, category) == TopicLink(kebabCase, category) + "/"
    ensures TopicLink(kebabCase, category) != GatsbyNode.CategoryPagePath(kebabCase, category)
  {
    assert |GatsbyNode.CategoryPagePath(kebabCase, category)| == |TopicLink(kebabCase, category)| + 1;
  }
}
