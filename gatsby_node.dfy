/** The site-generation hooks of gatsby-node.js: `onCreateNode`, which turns an
    Mdx node into a BlogPost or Snippet record (slug, edit URL, field defaults),
    and `createPages`, which plans one page per post, per category, the `/posts`
    listing and one page per snippet. */
module GatsbyNode {
  import opened Js

  /** Theme options after the defaults have been applied. */
  datatype ThemeOptions = ThemeOptions(contentPath: string, snippetsPath: string, basePath: string)

  /** The `File` node an Mdx node was read from. */
  datatype SourceFile = SourceFile(id: string, sourceInstanceName: string, relativePath: string)

  /** The front-matter fields the hook reads; each may be absent. */
  datatype Frontmatter = Frontmatter(
    title: Option<string>,
    slug: Option<string>,
    date: Option<string>,
    category: Option<seq<string>>,
    keywords: Option<seq<string>>,
    published: Option<bool>,
    socialImage: Option<string>)

  /** An Mdx node as the framework hands it to `onCreateNode`. */
  datatype MdxNode = MdxNode(id: string, internalType: string, frontmatter: Frontmatter, fileAbsolutePath: string)

  /** The library helpers the hook calls, whose behaviour the model leaves open:
      `urlResolve`, `createFilePath` (with the file node and a base path),
      `path.isAbsolute`, `createNodeId` and the `validURL` test (WHATWG URL parsing). */
  datatype Framework = Framework(
    urlResolve: (string, string) -> string,
    createFilePath: (SourceFile, string) -> string,
    isAbsolute: string -> bool,
    createNodeId: string -> string,
    validUrl: string -> bool)

  /** The `fieldData` of a blog post; `socialImageNode` is `socialImage___NODE`. */
  datatype PostFields = PostFields(
    title: Option<string>,
    category: seq<string>,
    slug: string,
    date: Option<string>,
    keywords: seq<string>,
    published: Option<bool>,
    editUrl: string,
    socialImage: Option<string>,
    socialImageNode: Option<string>)

  /** The `fieldData` of a snippet. */
  datatype SnippetFields = SnippetFields(
    title: Option<string>,
    slug: string,
    date: Option<string>,
    published: Option<bool>,
    editUrl: string)

  /** A node passed to `createNode`, with its id and its parent's id. */
  datatype ContentNode =
    | MdxBlogPost(id: string, parent: string, post: PostFields)
    | MdxSnippet(id: string, parent: string, snippet: SnippetFields)

  const PostsEditBase: string := "https://github.com/johnlindquist/johnlindquist.com/edit/master/content/posts"
  const SnippetsEditBase: string := "https://github.com/johnlindquist/johnlindquist.com/edit/master/content/snippets"

  // ---------------------------------------------------------------------------
  // Slugs

  // `s.replace(/\/*$/, '')`: the first match of the pattern is the whole run of
  // '/' at the end of `s` (or the empty string at its end), and it is removed.
  function StripTrailingSlashes(s: string): (r: string)
    ensures r <= s
    ensures r == [] || r[|r| - 1] != '/'
    ensures forall k :: |r| <= k < |s| ==> s[k] == '/'
  {
    if |s| > 0 && s[|s| - 1] == '/' then StripTrailingSlashes(s[..|s| - 1]) else s
  }

  // `slug.replace(/\/*$/, '/')`: the trailing run of '/' becomes exactly one.
  function NormalizeTrailingSlash(s: string): (r: string)
    ensures EndsWith(r, "/") && !EndsWith(r, "//")
    ensures r[..|r| - 1] <= s
    ensures forall k :: |r| - 1 <= k < |s| ==> s[k] == '/'
  {
    StripTrailingSlashes(s) + "/"
  }

  /** The three properties above determine the normalised slug: any string that
      is a prefix of `s` without a trailing '/', followed by one '/', where the
      rest of `s` is all '/', is the normalised slug. */
  lemma {:induction false} NormalizeTrailingSlashUnique(s: string, p: string)
    requires p <= s && (p == [] || p[|p| - 1] != '/')
    requires forall k :: |p| <= k < |s| ==> s[k] == '/'
    ensures NormalizeTrailingSlash(s) == p + "/"
  {
    var r := StripTrailingSlashes(s);
    // Both are prefixes of `s`; each ends before a character that is not '/',
    // while everything after the other one is '/'.
    assert p != [] ==> s[|p| - 1] == p[|p| - 1];
    assert r != [] ==> s[|r| - 1] == r[|r| - 1];
    assert |r| == |p|;
    assert r == s[..|r|] == p;
  }

  /** Normalising twice is the same as normalising once. */
  lemma {:induction false} NormalizeTrailingSlashIdempotent(s: string)
    ensures NormalizeTrailingSlash(NormalizeTrailingSlash(s)) == NormalizeTrailingSlash(s)
  {
    var n := NormalizeTrailingSlash(s);
    var p := StripTrailingSlashes(s);
    assert n == p + "/";
    assert p <= n;
    NormalizeTrailingSlashUnique(n, p);
  }

  /** A slug that already ends in exactly one '/' is left as it is. */
  lemma NormalizedSlugUnchanged(s: string)
    requires EndsWith(s, "/") && !EndsWith(s, "//")
    ensures NormalizeTrailingSlash(s) == s
  {
    var p := s[..|s| - 1];
    if p != [] {
      assert p[|p| - 1] == s[|s| - 2];
      assert s[|s| - 2..] != "//";
    }
    NormalizeTrailingSlashUnique(s, p);
    assert p + "/" == s;
  }

  /** The slug before normalisation: an absolute front-matter slug verbatim, a
      relative one resolved against `basePath`, and without one the path
      `createFilePath` derives from the file, resolved against `basePath`.
      An empty front-matter slug is falsy and counts as absent. */
  function SlugSource(fw: Framework, basePath: string, frontSlug: Option<string>, filePath: string): (slug: string)
  {
    if TruthyStr(frontSlug) then
      if fw.isAbsolute(frontSlug.value) then frontSlug.value
      else fw.urlResolve(basePath, frontSlug.value)
    else fw.urlResolve(basePath, filePath)
  }

  /** The slug a record gets. */
  function RecordSlug(fw: Framework, basePath: string, frontSlug: Option<string>, filePath: string): (r: string)
    ensures EndsWith(r, "/") && !EndsWith(r, "//")
  {
    NormalizeTrailingSlash(SlugSource(fw, basePath, frontSlug, filePath))
  }

  /** An absolute front-matter slug is used verbatim: the base path and the file
      path do not matter. */
  lemma AbsoluteSlugIgnoresBasePath(fw: Framework, b1: string, b2: string, s: string, f1: string, f2: string)
    requires s != "" && fw.isAbsolute(s)
    ensures RecordSlug(fw, b1, Some(s), f1) == RecordSlug(fw, b2, Some(s), f2) == NormalizeTrailingSlash(s)
  {
  }

  /** A relative front-matter slug is resolved against the base path, whatever the file path. */
  lemma RelativeSlugResolvedAgainstBase(fw: Framework, b: string, s: string, f1: string, f2: string)
    requires s != "" && !fw.isAbsolute(s)
    ensures RecordSlug(fw, b, Some(s), f1) == RecordSlug(fw, b, Some(s), f2) == NormalizeTrailingSlash(fw.urlResolve(b, s))
  {
  }

  /** Without a (truthy) front-matter slug the slug depends only on the file path. */
  lemma FilePathSlugWithoutFrontmatterSlug(fw: Framework, b: string, s: Option<string>, f: string)
    requires !TruthyStr(s)
    ensures RecordSlug(fw, b, s, f) == RecordSlug(fw, b, None, f) == NormalizeTrailingSlash(fw.urlResolve(b, f))
  {
  }

  // ---------------------------------------------------------------------------
  // Edit URLs

  /** A post's edit URL: the fixed posts prefix, the file path without its
      trailing '/', and `.md` whatever the source's extension. */
  function PostEditUrl(filePath: string): (r: string)
    ensures PostsEditBase <= r
    ensures |r| == |PostsEditBase| + |StripTrailingSlashes(filePath)| + 3
    ensures r[|PostsEditBase|..|r| - 3] == StripTrailingSlashes(filePath)
    ensures EndsWith(r, ".md") && !EndsWith(r, ".mdx")
  {
    var path := StripTrailingSlashes(filePath);
    ConcatParts(PostsEditBase, path, ".md");
    assert (PostsEditBase + path + ".md")[|PostsEditBase + path + ".md"| - 1] == 'd';
    PostsEditBase + path + ".md"
  }

  /** The suffix of a snippet's edit URL, chosen by substring tests on the
      absolute path: `x` is appended iff the path contains `.mdx`, and the
      folder form `/index.md(x)` is used iff the path contains `index.mdx`
      (for an `.mdx` path) or `index.md` (otherwise). */
  function SnippetEditSuffix(absolutePath: string): (suffix: string)
    ensures suffix in {"/index.mdx", ".mdx", "/index.md", ".md"}
    ensures EndsWith(suffix, "x") <==> Includes(absolutePath, ".mdx")
    ensures suffix[0] == '/' <==>
      (if Includes(absolutePath, ".mdx") then Includes(absolutePath, "index.mdx")
       else Includes(absolutePath, "index.md"))
  {
    var isMdx := Includes(absolutePath, ".mdx");
    var isInsideFolder := if isMdx then Includes(absolutePath, "index.mdx") else Includes(absolutePath, "index.md");
    if isInsideFolder then (if isMdx then "/index.mdx" else "/index.md")
    else (if isMdx then ".mdx" else ".md")
  }

  /** A snippet's edit URL: the fixed snippets prefix, the file path without its
      trailing '/', and the suffix the absolute path selects. */
  function SnippetEditUrl(filePath: string, absolutePath: string): (r: string)
    ensures SnippetsEditBase <= r
    ensures |r| == |SnippetsEditBase| + |StripTrailingSlashes(filePath)| + |SnippetEditSuffix(absolutePath)|
    ensures r[|SnippetsEditBase|..|r| - |SnippetEditSuffix(absolutePath)|] == StripTrailingSlashes(filePath)
    ensures EndsWith(r, SnippetEditSuffix(absolutePath))
  {
    var path := StripTrailingSlashes(filePath);
    var suffix := SnippetEditSuffix(absolutePath);
    ConcatParts(SnippetsEditBase, path, suffix);
    SnippetsEditBase + path + suffix
  }

  /** A string that includes `t` includes every part of `t`. */
  lemma IncludesPart(s: string, t: string, i: nat, j: nat)
    requires Includes(s, t) && i <= j <= |t|
    ensures Includes(s, t[i..j])
  {
    var k :| 0 <= k <= |s| - |t| && t <= s[k..];
    assert s[k + i..k + j] == t[i..j];
    IncludesAt(s, t[i..j], k + i);
  }

  /** A folder-style `.mdx` snippet (`.../index.mdx`) gets the `/index.mdx` suffix,
      and one whose path has `index.md` but no `.mdx` gets `/index.md`. */
  lemma {:induction false} FolderSnippetSuffix(absolutePath: string)
    ensures Includes(absolutePath, "index.mdx") ==> SnippetEditSuffix(absolutePath) == "/index.mdx"
    ensures !Includes(absolutePath, ".mdx") && Includes(absolutePath, "index.md") ==> SnippetEditSuffix(absolutePath) == "/index.md"
  {
    if Includes(absolutePath, "index.mdx") {
      IncludesPart(absolutePath, "index.mdx", 5, 9);
      assert "index.mdx"[5..9] == ".mdx";
    }
  }

  /** A flat snippet whose name merely contains `index.md` (such as
      `reindex.md`) is given the folder suffix too: the test is a substring
      test, not a test of the last path component. */
  lemma SubstringTestTakesFlatFileForFolder()
    ensures SnippetEditSuffix("/reindex.md") == "/index.md"
  {
    FlatFileIncludesIndexMd();
    FlatFileExcludesMdx();
    FolderSnippetSuffix("/reindex.md");
  }

  lemma FlatFileIncludesIndexMd()
    ensures Includes("/reindex.md", "index.md")
  {
    IncludesAt("/reindex.md", "index.md", 3);
  }

  lemma FlatFileExcludesMdx()
    ensures !Includes("/reindex.md", ".mdx")
  {
    var p := "/reindex.md";
    forall k | 0 <= k <= |p| - 4
      ensures !(".mdx" <= p[k..])
    {
      assert p[k] != '.';
    }
  }

  // ---------------------------------------------------------------------------
  // onCreateNode

  /** The node comes from the posts source and is an Mdx node. */
  predicate IsPostSource(opts: ThemeOptions, node: MdxNode, fileNode: SourceFile)
  {
    node.internalType == "Mdx" && fileNode.sourceInstanceName == opts.contentPath
  }

  /** The node comes from the snippets source and is an Mdx node. */
  predicate IsSnippetSource(opts: ThemeOptions, node: MdxNode, fileNode: SourceFile)
  {
    node.internalType == "Mdx" && fileNode.sourceInstanceName == opts.snippetsPath
  }

  /** `validURL(frontmatter.socialImage)`: an absent image is not a valid URL. */
  predicate HasRemoteImage(fw: Framework, socialImage: Option<string>)
  {
    socialImage.Some? && fw.validUrl(socialImage.value)
  }

  /** The `MdxBlogPost` node the posts branch creates: its id is derived from
      the Mdx node's id, its parent is the Mdx node, and its fields are the
      front matter with `category` and `keywords` defaulting to empty, the
      record slug, the post edit URL, and the remote image node only when the
      social image is a valid URL. */
  function PostRecord(fw: Framework, opts: ThemeOptions, node: MdxNode, fileNode: SourceFile, remoteImage: Option<string>)
    : (post: ContentNode)
    ensures post.MdxBlogPost? && post.parent == node.id
    ensures post.post.slug == RecordSlug(fw, opts.basePath, node.frontmatter.slug, fw.createFilePath(fileNode, opts.contentPath))
    ensures post.post.editUrl == PostEditUrl(fw.createFilePath(fileNode, opts.contentPath))
    ensures post.id == fw.createNodeId(node.id + " >>> MdxBlogPost")
    // Absent `category` and `keywords` default to empty lists.
    ensures post.post.category == (if node.frontmatter.category.Some? then node.frontmatter.category.value else [])
    ensures post.post.keywords == (if node.frontmatter.keywords.Some? then node.frontmatter.keywords.value else [])
    // The other front-matter fields are copied unchanged.
    ensures post.post.title == node.frontmatter.title && post.post.date == node.frontmatter.date
    ensures post.post.published == node.frontmatter.published && post.post.socialImage == node.frontmatter.socialImage
    // `socialImage___NODE` is set exactly when the URL is valid and a remote node came back, to that node's id.
    ensures post.post.socialImageNode.Some? <==> HasRemoteImage(fw, node.frontmatter.socialImage) && remoteImage.Some?
    ensures post.post.socialImageNode.Some? ==> post.post.socialImageNode == remoteImage
  {
    var fm := node.frontmatter;
    MdxBlogPost(fw.createNodeId(node.id + " >>> MdxBlogPost"), node.id, PostFields(
      fm.title,
      fm.category.GetOr([]),
      RecordSlug(fw, opts.basePath, fm.slug, fw.createFilePath(fileNode, opts.contentPath)),
      fm.date,
      fm.keywords.GetOr([]),
      fm.published,
      PostEditUrl(fw.createFilePath(fileNode, opts.contentPath)),
      fm.socialImage,
      if HasRemoteImage(fw, fm.socialImage) then remoteImage else None))
  }

  /** The `MdxSnippet` node the snippets branch creates: the front matter's
      title, date and published flag, the record slug and the snippet edit URL. */
  function SnippetRecord(fw: Framework, opts: ThemeOptions, node: MdxNode, fileNode: SourceFile): (snippet: ContentNode)
    ensures snippet.MdxSnippet? && snippet.parent == node.id
    ensures snippet.snippet.slug == RecordSlug(fw, opts.basePath, node.frontmatter.slug, fw.createFilePath(fileNode, opts.snippetsPath))
    ensures snippet.snippet.editUrl == SnippetEditUrl(fw.createFilePath(fileNode, opts.snippetsPath), node.fileAbsolutePath)
    ensures snippet.id == fw.createNodeId(node.id + " >>> MdxSnippet")
    ensures snippet.snippet.title == node.frontmatter.title && snippet.snippet.date == node.frontmatter.date
    ensures snippet.snippet.published == node.frontmatter.published
  {
    var fm := node.frontmatter;
    MdxSnippet(fw.createNodeId(node.id + " >>> MdxSnippet"), node.id, SnippetFields(
      fm.title,
      RecordSlug(fw, opts.basePath, fm.slug, fw.createFilePath(fileNode, opts.snippetsPath)),
      fm.date,
      fm.published,
      SnippetEditUrl(fw.createFilePath(fileNode, opts.snippetsPath), node.fileAbsolutePath)))
  }

  /** `onCreateNode` for one node: the nodes it creates, in order. `fileNode` is
      `getNode(node.parent)`; `remoteImage` is the id of the node that
      `createRemoteFileNode` returned, if it returned one. When the posts and the
      snippets source have the same name, both branches run. */
  method OnCreateNode(fw: Framework, opts: ThemeOptions, node: MdxNode, fileNode: SourceFile, remoteImage: Option<string>)
    returns (created: seq<ContentNode>)
    ensures node.internalType != "Mdx" ==> created == []
    ensures |created| == (if IsPostSource(opts, node, fileNode) then 1 else 0)
                       + (if IsSnippetSource(opts, node, fileNode) then 1 else 0)
    ensures IsPostSource(opts, node, fileNode) ==> created[0] == PostRecord(fw, opts, node, fileNode, remoteImage)
    ensures IsSnippetSource(opts, node, fileNode) ==> created[|created| - 1] == SnippetRecord(fw, opts, node, fileNode)
  {
    created := [];
    if node.internalType != "Mdx" {
      return;
    }
    var source := fileNode.sourceInstanceName;

    // Posts
    if source == opts.contentPath {
      var post := CreatePostNode(fw, opts, node, fileNode, remoteImage);
      created := created + [post];
    }

    // Snippets
    if source == opts.snippetsPath {
      var snippet := CreateSnippetNode(fw, opts, node, fileNode);
      created := created + [snippet];
    }
  }

  /** The slug computation both branches of `onCreateNode` share, with the
      base path `createFilePath` is given. */
  method ComputeSlug(fw: Framework, opts: ThemeOptions, fm: Frontmatter, fileNode: SourceFile, sourcePath: string)
    returns (slug: string)
    ensures slug == RecordSlug(fw, opts.basePath, fm.slug, fw.createFilePath(fileNode, sourcePath))
  {
    if TruthyStr(fm.slug) {
      if fw.isAbsolute(fm.slug.value) {
        // absolute paths take precedence
        slug := fm.slug.value;
      } else {
        slug := fw.urlResolve(opts.basePath, fm.slug.value);
      }
    } else {
      var filePath := fw.createFilePath(fileNode, sourcePath);
      slug := fw.urlResolve(opts.basePath, filePath);
    }
    slug := NormalizeTrailingSlash(slug);
  }

  /** The posts branch: the `MdxBlogPost` node it creates. */
  method CreatePostNode(fw: Framework, opts: ThemeOptions, node: MdxNode, fileNode: SourceFile, remoteImage: Option<string>)
    returns (post: ContentNode)
    ensures post == PostRecord(fw, opts, node, fileNode, remoteImage)
  {
    var fm := node.frontmatter;
    var slug := ComputeSlug(fw, opts, fm, fileNode, opts.contentPath);
    var postEditUrl := PostEditUrl(fw.createFilePath(fileNode, opts.contentPath));
    var fieldData := PostFields(fm.title, fm.category.GetOr([]), slug, fm.date,
                                fm.keywords.GetOr([]), fm.published, postEditUrl, fm.socialImage, None);
    if HasRemoteImage(fw, fm.socialImage) && remoteImage.Some? {
      fieldData := fieldData.(socialImageNode := remoteImage);
    }
    post := MdxBlogPost(fw.createNodeId(node.id + " >>> MdxBlogPost"), node.id, fieldData);
  }

  /** The snippets branch: the `MdxSnippet` node it creates. */
  method CreateSnippetNode(fw: Framework, opts: ThemeOptions, node: MdxNode, fileNode: SourceFile)
    returns (snippet: ContentNode)
    ensures snippet == SnippetRecord(fw, opts, node, fileNode)
  {
    var fm := node.frontmatter;
    var slug := ComputeSlug(fw, opts, fm, fileNode, opts.snippetsPath);
    var snippetEditUrl := SnippetEditUrl(fw.createFilePath(fileNode, opts.snippetsPath), node.fileAbsolutePath);
    var fieldData := SnippetFields(fm.title, slug, fm.date, fm.published, snippetEditUrl);
    snippet := MdxSnippet(fw.createNodeId(node.id + " >>> MdxSnippet"), node.id, fieldData);
  }

  // ---------------------------------------------------------------------------
  // createPages

  /** One edge of the sorted `allBlogPost` or `allSnippet` result. */
  datatype Edge = Edge(id: string, slug: string)

  /** The page templates. */
  datatype Template = PostTemplate | CategoryTemplate | PostsTemplate | SnippetTemplate

  /** A page's context; `Linked` is the one of post and snippet pages. */
  datatype PageContext =
    | Linked(id: string, previousId: Option<string>, nextId: Option<string>)
    | CategoryContext(category: string)
    | NoContext

  /** The argument of one `createPage` call. */
  datatype Page = Page(path: string, component: Template, context: PageContext)

  /** The id of the edge after `i` (the chronologically earlier record), if any. */
  function PreviousId(edges: seq<Edge>, i: nat): (previous: Option<string>)
    requires i < |edges|
    ensures previous.None? <==> i == |edges| - 1
  {
    if i == |edges| - 1 then None else Some(edges[i + 1].id)
  }

  /** The id of the edge before `i` (the chronologically later record), if any. */
  function NextId(edges: seq<Edge>, i: nat): (next: Option<string>)
    requires i < |edges|
    ensures next.None? <==> i == 0
  {
    if i == 0 then None else Some(edges[i - 1].id)
  }

  /** The page of the record at index `i`, at `prefix` + its slug. */
  function LinkedPage(edges: seq<Edge>, i: nat, prefix: string, component: Template): (page: Page)
    requires i < |edges|
  {
    Page(prefix + edges[i].slug, component, Linked(edges[i].id, PreviousId(edges, i), NextId(edges, i)))
  }

  /** The pages of the records, one per edge, in edge order. */
  function LinkedPages(edges: seq<Edge>, prefix: string, component: Template): (pages: seq<Page>)
    ensures |pages| == |edges|
  {
    seq(|edges|, i requires 0 <= i < |edges| => LinkedPage(edges, i, prefix, component))
  }

  /** The path of a category page. */
  function CategoryPagePath(kebabCase: string -> string, category: string): (path: string)
    ensures "/posts/" <= path && EndsWith(path, "/")
  {
    ConcatParts("/posts/", kebabCase(category), "/");
    "/posts/" + kebabCase(category) + "/"
  }

  /** The page of one category group. */
  function CategoryPage(kebabCase: string -> string, category: string): (page: Page)
    ensures page.component == CategoryTemplate && page.context == CategoryContext(category)
  {
    Page(CategoryPagePath(kebabCase, category), CategoryTemplate, CategoryContext(category))
  }

  /** One category page per group, in group order. */
  function CategoryPages(kebabCase: string -> string, categories: seq<string>): (pages: seq<Page>)
    ensures |pages| == |categories|
  {
    seq(|categories|, i requires 0 <= i < |categories| => CategoryPage(kebabCase, categories[i]))
  }

  const ListingPage: Page := Page("/posts", PostsTemplate, NoContext)

  /** All pages `createPages` creates, in the order it creates them. */
  function PlannedPages(posts: seq<Edge>, categories: seq<string>, snippets: seq<Edge>, kebabCase: string -> string): (pages: seq<Page>)
    ensures |pages| == |posts| + |categories| + 1 + |snippets|
  {
    LinkedPages(posts, "", PostTemplate) + CategoryPages(kebabCase, categories)
      + [ListingPage] + LinkedPages(snippets, "/snippets", SnippetTemplate)
  }

  /** `createPages` over the already sorted post and snippet edges and the
      category group values, collecting the `createPage` calls in order. */
  method CreatePages(posts: seq<Edge>, categories: seq<string>, snippets: seq<Edge>, kebabCase: string -> string)
    returns (pages: seq<Page>)
    ensures pages == PlannedPages(posts, categories, snippets, kebabCase)
  {
    pages := [];
    var index := 0;
    while index < |posts|
      invariant 0 <= index <= |posts|
      invariant pages == LinkedPages(posts, "", PostTemplate)[..index]
    {
      var previous := if index == |posts| - 1 then None else Some(posts[index + 1]);
      var next := if index == 0 then None else Some(posts[index - 1]);
      var post := posts[index];
      pages := pages + [Page(post.slug, PostTemplate, Linked(post.id,
        if previous.Some? then Some(previous.value.id) else None,
        if next.Some? then Some(next.value.id) else None))];
      assert "" + post.slug == post.slug;
      assert LinkedPages(posts, "", PostTemplate)[..index + 1]
          == LinkedPages(posts, "", PostTemplate)[..index] + [LinkedPage(posts, index, "", PostTemplate)];
      index := index + 1;
    }
    ghost var postPages := pages;
    var c := 0;
    while c < |categories|
      invariant 0 <= c <= |categories|
      invariant pages == postPages + CategoryPages(kebabCase, categories)[..c]
    {
      pages := pages + [Page("/posts/" + kebabCase(categories[c]) + "/", CategoryTemplate, CategoryContext(categories[c]))];
      c := c + 1;
    }
    pages := pages + [Page("/posts", PostsTemplate, NoContext)];
    ghost var beforeSnippets := pages;
    index := 0;
    while index < |snippets|
      invariant 0 <= index <= |snippets|
      invariant pages == beforeSnippets + LinkedPages(snippets, "/snippets", SnippetTemplate)[..index]
    {
      var previous := if index == |snippets| - 1 then None else Some(snippets[index + 1]);
      var next := if index == 0 then None else Some(snippets[index - 1]);
      var snippet := snippets[index];
      pages := pages + [Page("/snippets" + snippet.slug, SnippetTemplate, Linked(snippet.id,
        if previous.Some? then Some(previous.value.id) else None,
        if next.Some? then Some(next.value.id) else None))];
      assert LinkedPages(snippets, "/snippets", SnippetTemplate)[..index + 1]
          == LinkedPages(snippets, "/snippets", SnippetTemplate)[..index] + [LinkedPage(snippets, index, "/snippets", SnippetTemplate)];
      index := index + 1;
    }
    assert LinkedPages(posts, "", PostTemplate)[..|posts|] == LinkedPages(posts, "", PostTemplate);
    assert CategoryPages(kebabCase, categories)[..|categories|] == CategoryPages(kebabCase, categories);
    assert LinkedPages(snippets, "/snippets", SnippetTemplate)[..|snippets|] == LinkedPages(snippets, "/snippets", SnippetTemplate);
  }

  /** Exactly one page per post, per category and per snippet, plus the one
      listing page; each kind in input order, in the order post pages,
      category pages, the listing, snippet pages. */
  lemma PlannedPagesLayout(posts: seq<Edge>, categories: seq<string>, snippets: seq<Edge>, kebabCase: string -> string)
    ensures |PlannedPages(posts, categories, snippets, kebabCase)| == |posts| + |categories| + 1 + |snippets|
    ensures forall i :: 0 <= i < |posts| ==>
      var page := PlannedPages(posts, categories, snippets, kebabCase)[i];
      page.path == posts[i].slug && page.component == PostTemplate
      && page.context == Linked(posts[i].id, PreviousId(posts, i), NextId(posts, i))
    ensures forall j :: 0 <= j < |categories| ==>
      PlannedPages(posts, categories, snippets, kebabCase)[|posts| + j]
        == Page(CategoryPagePath(kebabCase, categories[j]), CategoryTemplate, CategoryContext(categories[j]))
    ensures PlannedPages(posts, categories, snippets, kebabCase)[|posts| + |categories|] == Page("/posts", PostsTemplate, NoContext)
    ensures forall k :: 0 <= k < |snippets| ==>
      var page := PlannedPages(posts, categories, snippets, kebabCase)[|posts| + |categories| + 1 + k];
      page.path == "/snippets" + snippets[k].slug && page.component == SnippetTemplate
      && page.context == Linked(snippets[k].id, PreviousId(snippets, k), NextId(snippets, k))
  {
    PostPagesPlanned(posts, categories, snippets, kebabCase);
    CategoryPagesPlanned(posts, categories, snippets, kebabCase);
    SnippetPagesPlanned(posts, categories, snippets, kebabCase);
  }

  /** The post pages come first, one per post edge, at the post's slug. */
  lemma PostPagesPlanned(posts: seq<Edge>, categories: seq<string>, snippets: seq<Edge>, kebabCase: string -> string)
    ensures |PlannedPages(posts, categories, snippets, kebabCase)| == |posts| + |categories| + 1 + |snippets|
    ensures forall i :: 0 <= i < |posts| ==>
      var page := PlannedPages(posts, categories, snippets, kebabCase)[i];
      page.path == posts[i].slug && page.component == PostTemplate
      && page.context == Linked(posts[i].id, PreviousId(posts, i), NextId(posts, i))
  {
    var pages := PlannedPages(posts, categories, snippets, kebabCase);
    forall i | 0 <= i < |posts|
      ensures pages[i].path == posts[i].slug && pages[i].component == PostTemplate
      ensures pages[i].context == Linked(posts[i].id, PreviousId(posts, i), NextId(posts, i))
    {
      PlannedPageAt(posts, categories, snippets, kebabCase, i);
      assert "" + posts[i].slug == posts[i].slug;
    }
  }

  /** The category pages follow, one per category group. */
  lemma CategoryPagesPlanned(posts: seq<Edge>, categories: seq<string>, snippets: seq<Edge>, kebabCase: string -> string)
    ensures forall j :: 0 <= j < |categories| ==>
      PlannedPages(posts, categories, snippets, kebabCase)[|posts| + j]
        == Page(CategoryPagePath(kebabCase, categories[j]), CategoryTemplate, CategoryContext(categories[j]))
  {
    forall j | 0 <= j < |categories|
      ensures PlannedPages(posts, categories, snippets, kebabCase)[|posts| + j]
        == Page(CategoryPagePath(kebabCase, categories[j]), CategoryTemplate, CategoryContext(categories[j]))
    {
      PlannedPageAt(posts, categories, snippets, kebabCase, |posts| + j);
    }
  }

  /** Then the listing page, then one page per snippet edge under `/snippets`. */
  lemma SnippetPagesPlanned(posts: seq<Edge>, categories: seq<string>, snippets: seq<Edge>, kebabCase: string -> string)
    ensures |PlannedPages(posts, categories, snippets, kebabCase)| == |posts| + |categories| + 1 + |snippets|
    ensures PlannedPages(posts, categories, snippets, kebabCase)[|posts| + |categories|] == Page("/posts", PostsTemplate, NoContext)
    ensures forall k :: 0 <= k < |snippets| ==>
      var page := PlannedPages(posts, categories, snippets, kebabCase)[|posts| + |categories| + 1 + k];
      page.path == "/snippets" + snippets[k].slug && page.component == SnippetTemplate
      && page.context == Linked(snippets[k].id, PreviousId(snippets, k), NextId(snippets, k))
  {
    PlannedPageAt(posts, categories, snippets, kebabCase, |posts| + |categories|);
    forall k | 0 <= k < |snippets|
      ensures var page := PlannedPages(posts, categories, snippets, kebabCase)[|posts| + |categories| + 1 + k];
        page.path == "/snippets" + snippets[k].slug && page.component == SnippetTemplate
        && page.context == Linked(snippets[k].id, PreviousId(snippets, k), NextId(snippets, k))
    {
      SnippetPageAt(posts, categories, snippets, kebabCase, k);
    }
  }

  lemma SnippetPageAt(posts: seq<Edge>, categories: seq<string>, snippets: seq<Edge>, kebabCase: string -> string, k: nat)
    requires k < |snippets|
    ensures PlannedPages(posts, categories, snippets, kebabCase)[|posts| + |categories| + 1 + k]
         == LinkedPage(snippets, k, "/snippets", SnippetTemplate)
  {
    PlannedPageAt(posts, categories, snippets, kebabCase, |posts| + |categories| + 1 + k);
  }

  /** The planned page at index `k`, by the segment `k` falls in. */
  lemma PlannedPageAt(posts: seq<Edge>, categories: seq<string>, snippets: seq<Edge>, kebabCase: string -> string, k: nat)
    requires k < |posts| + |categories| + 1 + |snippets|
    ensures var pages := PlannedPages(posts, categories, snippets, kebabCase);
      && |pages| == |posts| + |categories| + 1 + |snippets|
      && pages[k] == (
           if k < |posts| then LinkedPage(posts, k, "", PostTemplate)
           else if k < |posts| + |categories| then CategoryPage(kebabCase, categories[k - |posts|])
           else if k == |posts| + |categories| then ListingPage
           else LinkedPage(snippets, k - |posts| - |categories| - 1, "/snippets", SnippetTemplate))
  {
    var a := LinkedPages(posts, "", PostTemplate);
    var b := CategoryPages(kebabCase, categories);
    var d := LinkedPages(snippets, "/snippets", SnippetTemplate);
    var pages := PlannedPages(posts, categories, snippets, kebabCase);
    assert pages == a + b + [ListingPage] + d;
    if k < |posts| {
      assert pages[k] == a[k];
    } else if k < |posts| + |categories| {
      assert pages[k] == b[k - |posts|];
    } else if k > |posts| + |categories| {
      assert pages[k] == d[k - |posts| - |categories| - 1];
    }
  }

  /** Exactly one listing page is planned. */
  lemma OneListingPage(posts: seq<Edge>, categories: seq<string>, snippets: seq<Edge>, kebabCase: string -> string)
    ensures var pages := PlannedPages(posts, categories, snippets, kebabCase);
      forall k :: 0 <= k < |pages| ==> (pages[k].component == PostsTemplate <==> k == |posts| + |categories|)
  {
    var pages := PlannedPages(posts, categories, snippets, kebabCase);
    PlannedPagesLayout(posts, categories, snippets, kebabCase);
    forall k | 0 <= k < |pages|
      ensures pages[k].component == PostsTemplate <==> k == |posts| + |categories|
    {
      if k < |posts| {
      } else if k < |posts| + |categories| {
        assert pages[k] == pages[|posts| + (k - |posts|)];
      } else if k > |posts| + |categories| {
        assert pages[k] == pages[|posts| + |categories| + 1 + (k - |posts| - |categories| - 1)];
      }
    }
  }

  /** With distinct ids, the previous/next links are mutual: record `j` is the
      previous of record `i` exactly when `i` is the next of `j`, which happens
      exactly when `j` is `i + 1`. The first record has no next, the last no
      previous. */
  lemma {:induction false} LinksAreMutual(edges: seq<Edge>, i: nat, j: nat)
    requires forall a, b :: 0 <= a < b < |edges| ==> edges[a].id != edges[b].id
    requires i < |edges| && j < |edges|
    ensures PreviousId(edges, i) == Some(edges[j].id) <==> j == i + 1
    ensures NextId(edges, j) == Some(edges[i].id) <==> j == i + 1
    ensures NextId(edges, 0) == None && PreviousId(edges, |edges| - 1) == None
  {
  }
}
