/** The `Categories` component (src/components/posts.js): one section per
    category group, listing and counting the posts whose `category` list
    includes it, and an "Uncategorized" section for the posts with an empty
    `category` list, shown only when there is one. */
module PostsComponent {
  import opened Js

  /** The fields of a post the component reads. */
  datatype Post = Post(id: string, slug: string, title: string, excerpt: string, category: seq<string>)

  /** A rendered section: its heading, the count shown beside it and the posts listed under it. */
  datatype Section = Section(heading: string, count: nat, posts: seq<Post>)

  /** What the component renders. */
  datatype CategoriesView = CategoriesView(sections: seq<Section>, uncategorized: Option<Section>)

  /** `posts.filter(keep)`. */
  function Filter(posts: seq<Post>, keep: Post -> bool): (r: seq<Post>)
    ensures |r| <= |posts|
    ensures forall p :: p in r <==> p in posts && keep(p)
  {
    if posts == [] then []
    else (if keep(posts[0]) then [posts[0]] else []) + Filter(posts[1..], keep)
  }

  /** `post.category.includes(category)` */
  function InCategory(category: string): (test: Post -> bool)
    ensures forall p :: test(p) <==> category in p.category
  {
    (p: Post) => category in p.category
  }

  /** `post.category.length === 0` */
  predicate IsUncategorized(p: Post)
  {
    |p.category| == 0
  }

  /** The section of one category group. */
  function CategorySection(posts: seq<Post>, category: string): (s: Section)
    ensures s.heading == category && s.count == |s.posts|
  {
    Section(category, |Filter(posts, InCategory(category))|, Filter(posts, InCategory(category)))
  }

  const UncategorizedHeading: string := "Uncategorized"

  /** The component's output for the category groups `categories` (their
      `fieldValue`s) and the posts `posts`. */
  function Categories(categories: seq<string>, posts: seq<Post>): (view: CategoriesView)
    ensures |view.sections| == |categories|
  {
    var numberOfUncategorizedPosts := |Filter(posts, IsUncategorized)|;
    CategoriesView(
      seq(|categories|, i requires 0 <= i < |categories| => CategorySection(posts, categories[i])),
      if |Filter(posts, IsUncategorized)| > 0
      then Some(Section(UncategorizedHeading, numberOfUncategorizedPosts, Filter(posts, IsUncategorized)))
      else None)
  }

  /** Filtering distributes over concatenation, so a section lists its posts in
      their input order. */
  lemma {:induction false} FilterConcat(a: seq<Post>, b: seq<Post>, keep: Post -> bool)
    ensures Filter(a + b, keep) == Filter(a, keep) + Filter(b, keep)
  {
    if a == [] {
      assert a + b == b;
    } else {
      var head := if keep(a[0]) then [a[0]] else [];
      assert (a + b)[0] == a[0] && (a + b)[1..] == a[1..] + b;
      calc {
        Filter(a + b, keep);
        head + Filter(a[1..] + b, keep);
        { FilterConcat(a[1..], b, keep); }
        head + (Filter(a[1..], keep) + Filter(b, keep));
        (head + Filter(a[1..], keep)) + Filter(b, keep);
      }
    }
  }

  /** Each post occurs in a filtered list as often as in the input if it is
      kept, and not at all otherwise. */
  lemma {:induction false} FilterMultiplicity(posts: seq<Post>, keep: Post -> bool, p: Post)
    ensures multiset(Filter(posts, keep))[p] == if keep(p) then multiset(posts)[p] else 0
  {
    if posts != [] {
      FilterMultiplicity(posts[1..], keep, p);
      assert posts == [posts[0]] + posts[1..];
    }
  }

  /** The indices of the posts a filter keeps. */
  function KeptIndices(posts: seq<Post>, keep: Post -> bool): (kept: set<nat>)
    ensures forall i :: i in kept ==> i < |posts|
  {
    set i: nat | i < |posts| && keep(posts[i])
  }

  /** Appending a post adds its index to the kept indices iff it is kept. */
  lemma KeptIndicesSnoc(init: seq<Post>, last: Post, keep: Post -> bool)
    ensures KeptIndices(init + [last], keep) == KeptIndices(init, keep) + (if keep(last) then {|init|} else {})
    ensures |init| !in KeptIndices(init, keep)
  {
    var posts := init + [last];
    forall i: nat | i < |init|
      ensures posts[i] == init[i]
    {
    }
  }

  /** The length of a filtered list is the number of posts that satisfy the test. */
  lemma {:induction false} FilterLengthCountsKept(posts: seq<Post>, keep: Post -> bool)
    ensures |Filter(posts, keep)| == |KeptIndices(posts, keep)|
  {
    if posts == [] {
      assert KeptIndices(posts, keep) == {};
    } else {
      var init, last := posts[..|posts| - 1], posts[|posts| - 1];
      assert posts == init + [last];
      FilterLengthCountsKept(init, keep);
      FilterConcat(init, [last], keep);
      assert [last][1..] == [];
      assert |Filter([last], keep)| == if keep(last) then 1 else 0;
      KeptIndicesSnoc(init, last, keep);
    }
  }

  /** One section per category group, in group order; the count shown for a
      category is the number of posts whose `category` includes it, which is
      the length of the list under it; that list holds exactly those posts, in
      input order, each as often as it occurs in the input. */
  lemma CategorySections(categories: seq<string>, posts: seq<Post>)
    ensures var view := Categories(categories, posts);
      && |view.sections| == |categories|
      && forall i :: 0 <= i < |categories| ==>
           var s := view.sections[i];
           && s.heading == categories[i]
           && s.count == |s.posts| == |KeptIndices(posts, InCategory(categories[i]))|
           && (forall p :: p in s.posts <==> p in posts && categories[i] in p.category)
           && (forall p :: multiset(s.posts)[p] == if categories[i] in p.category then multiset(posts)[p] else 0)
  {
    var view := Categories(categories, posts);
    forall i | 0 <= i < |categories|
      ensures |view.sections[i].posts| == |KeptIndices(posts, InCategory(categories[i]))|
      ensures forall p :: multiset(view.sections[i].posts)[p]
                == if categories[i] in p.category then multiset(posts)[p] else 0
    {
      FilterLengthCountsKept(posts, InCategory(categories[i]));
      forall p
        ensures multiset(view.sections[i].posts)[p] == if categories[i] in p.category then multiset(posts)[p] else 0
      {
        FilterMultiplicity(posts, InCategory(categories[i]), p);
      }
    }
  }

  /** The "Uncategorized" section is rendered iff some post has an empty
      `category` list; its count is the number of such posts and it lists
      exactly them. */
  lemma UncategorizedSection(categories: seq<string>, posts: seq<Post>)
    ensures var view := Categories(categories, posts);
      && (view.uncategorized.Some? <==> exists p :: p in posts && IsUncategorized(p))
      && (view.uncategorized.Some? ==>
            var s := view.uncategorized.value;
            && s.heading == UncategorizedHeading
            && s.count == |s.posts| == |KeptIndices(posts, IsUncategorized)|
            && forall p :: p in s.posts <==> p in posts && IsUncategorized(p))
  {
    var kept := Filter(posts, IsUncategorized);
    FilterLengthCountsKept(posts, IsUncategorized);
    if exists p :: p in posts && IsUncategorized(p) {
      var p :| p in posts && IsUncategorized(p);
      assert p in kept;
    }
  }

  /** An uncategorized post is listed under no category section. */
  lemma UncategorizedOnlyInItsSection(categories: seq<string>, posts: seq<Post>, p: Post)
    requires IsUncategorized(p)
    ensures var view := Categories(categories, posts);
      forall i :: 0 <= i < |view.sections| ==> p !in view.sections[i].posts
  {
  }
}
