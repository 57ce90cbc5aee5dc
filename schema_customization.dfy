/** The `socialImage` field resolver of the MdxBlogPost type and the relative
    image lookup it falls back on (gatsby/create-schema-customization.js). */
module SchemaCustomization {
  import opened Js

  /** A `File` node: its id, its directory and its absolute path. */
  datatype FileNode = FileNode(id: string, dir: string, absolutePath: string)

  /** The two fields of an MdxBlogPost node that the resolver reads:
      `socialImage___NODE` and `socialImage`. */
  datatype ImageSource = ImageSource(socialImageNode: Option<string>, socialImage: Option<string>)

  /** What the resolver sees of the framework for one source node:
      `nodeModel.getNodeById`, the result of `findRootNodeAncestor` with the
      `File` test, `nodeModel.getAllNodes({ type: 'File' })`, and the path
      joining `slash(path.join(dir, p))`. */
  datatype NodeModel = NodeModel(
    getNodeById: string -> Option<FileNode>,
    rootFileAncestor: Option<FileNode>,
    allFiles: seq<FileNode>,
    joinPath: (string, string) -> string)

  /** The first file, in list order, whose absolute path is `path`. */
  function FirstFileAt(files: seq<FileNode>, path: string): (r: Option<FileNode>)
    ensures r.None? <==> forall i :: 0 <= i < |files| ==> files[i].absolutePath != path
    ensures r.Some? ==> exists i :: 0 <= i < |files| && files[i] == r.value && r.value.absolutePath == path
                                   && forall j :: 0 <= j < i ==> files[j].absolutePath != path
  {
    if files == [] then None
    else if files[0].absolutePath == path then Some(files[0])
    else
      var r := FirstFileAt(files[1..], path);
      assert forall i :: 1 <= i < |files| ==> files[i] == files[1..][i - 1];
      r
  }

  /** The path of the image `relativePath` next to the Mdx file, if the source
      has a `File` root ancestor. */
  function ImagePath(model: NodeModel, relativePath: string): (path: Option<string>)
    ensures model.rootFileAncestor.None? ==> path.None?
    ensures model.rootFileAncestor.Some? ==> path == Some(model.joinPath(model.rootFileAncestor.value.dir, relativePath))
  {
    if model.rootFileAncestor.None? then None
    else Some(model.joinPath(model.rootFileAncestor.value.dir, relativePath))
  }

  /** `processRelativeImage`: nothing without a `File` root ancestor; otherwise
      the first file whose absolute path is the joined image path, scanning the
      file list in order and stopping at the first match; nothing if none matches. */
  method ProcessRelativeImage(model: NodeModel, relativePath: string) returns (found: Option<FileNode>)
    ensures ImagePath(model, relativePath).None? ==> found == None
    ensures ImagePath(model, relativePath).Some? ==> found == FirstFileAt(model.allFiles, ImagePath(model, relativePath).value)
  {
    if model.rootFileAncestor.None? {
      return None;
    }
    var imagePath := model.joinPath(model.rootFileAncestor.value.dir, relativePath);
    var fileNodes := model.allFiles;
    var i := 0;
    while i < |fileNodes|
      invariant 0 <= i <= |fileNodes|
      invariant forall j :: 0 <= j < i ==> fileNodes[j].absolutePath != imagePath
    {
      if fileNodes[i].absolutePath == imagePath {
        FirstMatchIsFirstFileAt(fileNodes, imagePath, i);
        return Some(fileNodes[i]);
      }
      i := i + 1;
    }
    return None;
  }

  /** An index whose file matches, with no match before it, is what `FirstFileAt` returns. */
  lemma {:induction false} FirstMatchIsFirstFileAt(files: seq<FileNode>, path: string, i: nat)
    requires i < |files| && files[i].absolutePath == path
    requires forall j :: 0 <= j < i ==> files[j].absolutePath != path
    ensures FirstFileAt(files, path) == Some(files[i])
  {
    var r := FirstFileAt(files, path);
    var k :| 0 <= k < |files| && files[k] == r.value && r.value.absolutePath == path
             && forall j :: 0 <= j < k ==> files[j].absolutePath != path;
    assert files[k].absolutePath == path && files[i].absolutePath == path;
    assert k == i;
  }

  /** The `socialImage` resolver: the node `socialImage___NODE` names if that
      is set, else the relative-image lookup if `socialImage` is set, else nothing. */
  method ResolveSocialImage(source: ImageSource, model: NodeModel) returns (image: Option<FileNode>)
    ensures TruthyStr(source.socialImageNode) ==> image == model.getNodeById(source.socialImageNode.value)
    ensures !TruthyStr(source.socialImageNode) && TruthyStr(source.socialImage) ==>
      image == (var p := ImagePath(model, source.socialImage.value); if p.None? then None else FirstFileAt(model.allFiles, p.value))
    ensures !TruthyStr(source.socialImageNode) && !TruthyStr(source.socialImage) ==> image == None
  {
    if TruthyStr(source.socialImageNode) {
      image := model.getNodeById(source.socialImageNode.value);
    } else if TruthyStr(source.socialImage) {
      image := ProcessRelativeImage(model, source.socialImage.value);
    } else {
      image := None;
    }
  }

  /** A resolved relative image is a file of the list, at the joined path. */
  lemma RelativeImageIsListedFile(model: NodeModel, relativePath: string)
    requires ImagePath(model, relativePath).Some?
    ensures var r := FirstFileAt(model.allFiles, ImagePath(model, relativePath).value);
      r.Some? ==> (r.value in model.allFiles
                   && r.value.absolutePath == model.joinPath(model.rootFileAncestor.value.dir, relativePath))
  {
  }
}
