# johnlindquist.com blog core, modelled in Dafny

This project models the logic of a Gatsby blog that is not user-interface code. Each area is one Dafny module:

- **Record creation** (`GatsbyNode`, gatsby-node.js). For each Mdx node coming from the posts source or the snippets source, `onCreateNode` derives the slug and the edit-on-GitHub URL. It then creates an `MdxBlogPost` or `MdxSnippet` record.
- **Page planning** (`GatsbyNode`). `createPages` plans one page per post, one per category group, one listing page and one per snippet. Each post and snippet page gets previous/next links.
- **The `socialImage` resolver** (`SchemaCustomization`, gatsby/create-schema-customization.js). It uses an attached remote image node if there is one. Otherwise it scans for the file next to the Mdx file at the relative path.
- **The `Categories` component** (`PostsComponent`, src/components/posts.js). It renders one counted section per category and an "Uncategorized" section.
- **The `SEO` component** (`Seo`, src/components/seo.js). It computes the head-manager props from the page props and the site metadata.
- **The RSS `serialize` callback** (`GatsbyConfig`, gatsby-config.js).
- **Home-page helpers** (`IndexPage`, src/pages/index.js). These are the live emoji, the topic label, the search toggle and the topic link.
- **The CodeSandbox embed URL** (`Codesandbox`, src/components/mdx/Codesandbox.js).

`Js` holds the small part of JavaScript semantics the code relies on: truthiness, `||` on strings, `includes`, and the string a template literal makes of a value.

Helpers whose code is not part of this model are parameters, so every property below holds for every choice of them:

- `GatsbyNode.Framework` is a record holding the library functions `urlResolve`, `createFilePath`, `path.isAbsolute` and `createNodeId`, together with the file's own `validURL` test (gatsby-node.js:37-44), whose URL parsing is not modelled.
- `SchemaCustomization.NodeModel` is a record holding the node model's lookups and the `slash(path.join(...))` path join.
- lodash's `kebabCase` is a plain function parameter of `GatsbyNode.CreatePages` and `IndexPage.TopicLink`.

Behaviour of the code worth noting:

- **Post edit URL.** The URL always ends in `.md`, even for an `.mdx` post or a folder post (gatsby-node.js:89-96). Only snippets choose among `.md`, `.mdx`, `/index.md` and `/index.mdx`.
- **Snippet slugs.** They are resolved against the blog's `basePath`, not against `/snippets` (gatsby-node.js:144-160). The `/snippets` prefix is added only to the page path (gatsby-node.js:287).
- **Snippet folder test.** Whether a snippet lives in a folder is decided by a substring test on the absolute path, not by the last path component (gatsby-node.js:167-170). `GatsbyNode.SubstringTestTakesFlatFileForFolder` exhibits the consequence.
- **Slug normalisation.** The pattern `/\/*$/` has no `g` flag. Its first match is the whole trailing run of `/`, so a slug ends in exactly one `/` after normalisation.

## Model

| member | source | states |
|---|---|---|
| GatsbyNode.StripTrailingSlashes | gatsby-node.js:95 | Removing the trailing-slash match leaves a prefix of the input that does not end in `/`; everything removed is `/` |
| GatsbyNode.NormalizeTrailingSlash | gatsby-node.js:86 | The normalised slug ends in exactly one `/`; before it is a prefix of the input, and the rest of the input is all `/` |
| GatsbyNode.NormalizeTrailingSlashUnique | gatsby-node.js:86 | Those properties determine the normalised slug uniquely |
| GatsbyNode.NormalizeTrailingSlashIdempotent | gatsby-node.js:86 | Normalising twice equals normalising once |
| GatsbyNode.NormalizedSlugUnchanged | gatsby-node.js:163 | A slug already ending in exactly one `/` is left unchanged |
| GatsbyNode.RecordSlug | gatsby-node.js:66-86 | Every record slug ends in exactly one `/` |
| GatsbyNode.AbsoluteSlugIgnoresBasePath | gatsby-node.js:67-70 | An absolute front-matter slug is used verbatim, whatever the base path and file path |
| GatsbyNode.RelativeSlugResolvedAgainstBase | gatsby-node.js:71-74 | A relative front-matter slug is resolved against `basePath`, whatever the file path |
| GatsbyNode.FilePathSlugWithoutFrontmatterSlug | gatsby-node.js:75-84 | An absent or empty front-matter slug gives the resolved file path, the same as no slug at all |
| GatsbyNode.PostEditUrl | gatsby-node.js:89-96 | A post's edit URL is the posts prefix, then the file path without trailing `/`, then `.md`; it never ends in `.mdx` |
| GatsbyNode.SnippetEditSuffix | gatsby-node.js:166-175 | The suffix is one of four; it ends in `x` iff the path contains `.mdx`; it is a folder form iff the path contains `index.mdx` (mdx) or `index.md` (otherwise) |
| GatsbyNode.SnippetEditUrl | gatsby-node.js:171-175 | A snippet's edit URL is the snippets prefix, then the file path without trailing `/`, then the selected suffix |
| GatsbyNode.FolderSnippetSuffix | gatsby-node.js:167-175 | A path containing `index.mdx` gets `/index.mdx`; one with `index.md` and no `.mdx` gets `/index.md` |
| GatsbyNode.SubstringTestTakesFlatFileForFolder | gatsby-node.js:168-170 | The flat file `/reindex.md` is given the folder suffix `/index.md` |
| GatsbyNode.PostRecord | gatsby-node.js:97-137 | The id is `createNodeId` of the Mdx id followed by ` >>> MdxBlogPost`, and the parent is the Mdx node. `category` and `keywords` default to empty lists; title, date, published and socialImage are copied unchanged. The slug is the record slug and the edit URL the post edit URL. `socialImage___NODE` is set exactly when the URL is valid and a remote node came back, and then it is that node's id |
| GatsbyNode.SnippetRecord | gatsby-node.js:177-197 | The id is `createNodeId` of the Mdx id followed by ` >>> MdxSnippet`, and the parent is the Mdx node. Title, date and published are copied unchanged. The slug is the record slug and the edit URL the snippet edit URL |
| GatsbyNode.ComputeSlug | gatsby-node.js:66-86 | The slug the branch computes step by step is the record slug |
| GatsbyNode.CreatePostNode | gatsby-node.js:64-139 | The posts branch creates exactly the post record, attaching the remote image node only for a valid URL |
| GatsbyNode.CreateSnippetNode | gatsby-node.js:142-199 | The snippets branch creates exactly the snippet record |
| GatsbyNode.OnCreateNode | gatsby-node.js:48-201 | Non-Mdx nodes create nothing. One record is created per matching source, the post record first and the snippet record last |
| GatsbyNode.PlannedPages | gatsby-node.js:247-295 | The planned pages number one per post, one per category group, one listing page and one per snippet |
| GatsbyNode.CreatePages | gatsby-node.js:209-296 | The pages created are exactly the planned pages, in order |
| GatsbyNode.PlannedPagesLayout | gatsby-node.js:247-295 | There is one page per post, per category and per snippet, plus one listing page, in that order. Each page has its path, template and context; snippet paths are prefixed by `/snippets` |
| GatsbyNode.PostPagesPlanned | gatsby-node.js:248-261 | The post pages come first, one per post, at the post's slug with its previous/next ids |
| GatsbyNode.CategoryPagesPlanned | gatsby-node.js:264-272 | The category pages follow, one per group, at `/posts/<kebab>/` |
| GatsbyNode.SnippetPagesPlanned | gatsby-node.js:275-295 | Then the single listing page, then one page per snippet under `/snippets` |
| GatsbyNode.OneListingPage | gatsby-node.js:274-279 | Exactly one planned page uses the listing template, and it sits after the category pages |
| GatsbyNode.LinksAreMutual | gatsby-node.js:248-261 | With distinct ids, `j` is the previous of `i` iff `i` is the next of `j` iff `j = i + 1`; the first record has no next and the last has no previous |
| SchemaCustomization.FirstFileAt | gatsby/create-schema-customization.js:150-155 | The result is nothing iff no file has the path; otherwise it is the first file in list order with that path |
| SchemaCustomization.ImagePath | gatsby/create-schema-customization.js:141-148 | Without a `File` root ancestor there is no image path; otherwise it is the ancestor's directory joined with the relative path |
| SchemaCustomization.ProcessRelativeImage | gatsby/create-schema-customization.js:139-156 | Without a `File` root ancestor the result is nothing; otherwise the scan returns the first file at the joined image path |
| SchemaCustomization.FirstMatchIsFirstFileAt | gatsby/create-schema-customization.js:151-155 | The index where the scan stops is the first match |
| SchemaCustomization.ResolveSocialImage | gatsby/create-schema-customization.js:30-38 | The attached node wins; then the relative lookup if `socialImage` is set; otherwise nothing |
| SchemaCustomization.RelativeImageIsListedFile | gatsby/create-schema-customization.js:148-153 | A resolved relative image is a listed file whose absolute path is the joined path |
| PostsComponent.Categories | src/components/posts.js:8-95 | The component renders one section per category group |
| PostsComponent.InCategory | src/components/posts.js:18 | The test holds exactly for the posts whose `category` list includes the category |
| PostsComponent.Filter | src/components/posts.js:9-11 | A filtered list is no longer than its input and holds exactly the kept posts |
| PostsComponent.FilterConcat | src/components/posts.js:39-41 | Filtering distributes over concatenation, so input order is kept |
| PostsComponent.FilterMultiplicity | src/components/posts.js:39-41 | Each kept post appears as often as in the input, and a dropped post never appears |
| PostsComponent.FilterLengthCountsKept | src/components/posts.js:17-19 | The filtered length is the number of posts that pass the test |
| PostsComponent.CategorySections | src/components/posts.js:16-58 | There is one section per category group, in order. Its count equals its list length and the number of posts in the category. The list holds exactly those posts, with their input multiplicities |
| PostsComponent.UncategorizedSection | src/components/posts.js:61-92 | The Uncategorized section is shown iff some post has no category. Its count is their number and it lists exactly them |
| PostsComponent.UncategorizedOnlyInItsSection | src/components/posts.js:39-41 | A post without a category appears under no category section |
| Seo.WithDefaults | src/components/seo.js:91-96 | Given `lang`, `meta` and `description` are kept; absent ones become `en`, an empty tag list and an empty description; the other props are untouched |
| Seo.BuiltInTags | src/components/seo.js:23-86 | See the note below the table |
| Seo.SeoHelmet | src/components/seo.js:7-96 | `lang` defaults to `en`; the title falls back to the site's; the title template appends the author to `%s` only for a given title; the built-in tags come first and the caller's tags follow unchanged |
| Seo.SeoHelmetTags | src/components/seo.js:23-86 | In terms of the props as given, an absent and an empty description both fall back to the site's, identically in all three description tags. The title appears in `og:title` and `twitter:title`. The built-in keys keep their positions |
| GatsbyConfig.Serialize | gatsby-config.js:104-118 | There is one item per edge, in order. `url` and `guid` are both site URL + slug. Title, description and date are the node's title, excerpt and date |
| GatsbyConfig.SerializeConcat | gatsby-config.js:105 | Serialising a concatenation is the concatenation of the serialisations |
| GatsbyConfig.DistinctSlugsDistinctGuids | gatsby-config.js:113-114 | Posts with different slugs get different guids |
| IndexPage.GetEmoji | src/pages/index.js:34-37 | The result is the camera emoji iff the categories are given and include `live`; otherwise it is empty |
| IndexPage.TopicLabel | src/pages/index.js:154-156 | The label equals the category iff the category is not `javascript`, which is shown as `JavaScript` |
| IndexPage.TopicLabelCollision | src/pages/index.js:154-156 | Two categories share a label only if they are `javascript` and `JavaScript` |
| IndexPage.SearchOn | src/pages/index.js:53 | Search is on iff the search value is non-empty |
| IndexPage.ListedPosts | src/pages/index.js:95-135 | An empty search lists the recent posts; a non-empty one lists the search results |
| IndexPage.TopicLink | src/pages/index.js:152 | A topic link is `/posts/` followed by the kebab-cased category |
| IndexPage.TopicLinkIsCategoryPathWithoutSlash | src/pages/index.js:152 | A topic link is the category page's path minus its trailing `/`, so the two differ |
| Codesandbox.FontSize | src/components/mdx/Codesandbox.js:13 | The font size is the given value if truthy, else 14 |
| Codesandbox.EmbedOptions | src/components/mdx/Codesandbox.js:14-17 | `expanddevtools` appears iff `console` is truthy, `module` iff `module` is, `view` iff `view` is, and `hidenavigation` iff `hide` is falsy. Module and view carry the props' string values |
| Codesandbox.EmbedOptionsOrdered | src/components/mdx/Codesandbox.js:29-31 | The options appear at most once each, in the fixed order console, module, view, hide-navigation |
| Codesandbox.EmbedOptionsText | src/components/mdx/Codesandbox.js:14-17 | The four parameter strings spell out the selected options |
| Js.DecimalDigitsValue | src/components/mdx/Codesandbox.js:31 | The decimal string a template literal makes of a natural number, such as the font size, spells that number |
| Codesandbox.EmbedUrl | src/components/mdx/Codesandbox.js:29-31 | The `src` is the embed base, the slug, `?fontsize=` and the font size, then the selected options in order |
| Codesandbox.ZeroFontSizeGivesDefault | src/components/mdx/Codesandbox.js:13 | A font size of 0 or no font size gives `14` |

Note on `Seo.BuiltInTags` (stated for props to which the defaults have been applied):

- The 11 built-in tags come in fixed key order.
- The description falls back to the site's, identically in all three description tags.
- The title falls back to the site's, in `og:title` and `twitter:title` alike.
- `og:type` defaults to `website`.
- `og:url` is site URL + slug for a truthy slug, else the site URL.
- Both image tags hold site URL + card or the default card.
- `twitter:card` is `summary_large_image`, and `twitter:creator` is the author.

## Left out

- `onPreBootstrap` is not modelled; it creates content directories on disk (file-system I/O).
- `createRemoteFileNode` is not modelled because it downloads the image (network). Its outcome is the `remoteImage` parameter of `OnCreateNode`.
- GatsbyNode.OnCreateNode: models the intended remote-image attachment. As written, the call at gatsby-node.js:110-117 passes `cache` and `store`, which are not bound in `onCreateNode`. So every post whose `socialImage` passes `validURL` throws a ReferenceError there, before `createNode`, and no post record is created. So the post record with `socialImageNode` set (`GatsbyNode.PostRecord`) is a state the code as written never reaches.
- SchemaCustomization.ProcessRelativeImage: models the intended lookup. gatsby/create-schema-customization.js imports neither `path` nor `slash`, so line 148 throws a ReferenceError whenever a `File` root ancestor is found. As written, the resolver's relative branch (lines 35-36) never returns a file.
- `validURL`, `urlResolve`, `createFilePath`, `path.isAbsolute`, `createNodeId`, `kebabCase`, `path.join`/`slash` and the node-model lookups are parameters (see above). Their own parsing and string handling is not modelled.
- `createContentDigest`, the `internal` block (digest, JSON content, description), `children` and `createParentChildLink` are not modelled: they are node-store bookkeeping. A created record is its id, parent and fields.
- The GraphQL queries are not modelled: their sorting, grouping, `limit: 1000` and published filters belong to the data layer. `createPages` and `serialize` take the query results as given. `reporter.panic` on query errors is not modelled.
- `async`/`await` is modelled as sequential execution.
- `withDefaults` in src/utils/default-options is not part of this model. The theme options are a parameter.
- `mdxResolverPassthrough`, the excerpt/body resolvers and the `createTypes` SDL are schema declarations, so they are not modelled.
- The React trees, `Link`, `Markdown`, layout, styles, `pluralize` and the iframe's attributes other than `src` are not modelled: they are rendering.
- Fuse search is left out: its fuzzy matching is library code. `IndexPage.ListedPosts` takes the results as a parameter.
- `Seo.SeoHelmet`: `propTypes` run-time checks are not modelled, and the bundled default card image's URL is a parameter.
- `Codesandbox.FontSize`: numbers are integers only. Non-integer font sizes and JavaScript's floating-point number formatting are not modelled.
