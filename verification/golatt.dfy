/**
 * The server configuration (golatt.go): the `Golatt` record, the defaults
 * `New` fills in, and the adapter that lets an embedded file tree rooted at
 * a sub-folder be served as if that folder were its root.
 *
 * The router, the not-found handler and server start-up are not part of
 * this model.
 */
module Golatt {
  import opened Wrappers
  import opened Fs
  import opened Data

  /** A custom template function, not interpreted. */
  type Helper

  /**
   * Everything the rendering pipeline reads. It is set up before serving
   * and only read afterwards, so it is a value. `FsDirectory` is the folder
   * of `Files` that holds the templates; `getFile` reads it although the
   * record in golatt.go does not declare it.
   */
  datatype Golatt = Golatt(
    Files: FileSystem,
    Templates: seq<string>,
    DefaultSeoData: Option<Seo>,
    InitialSection: string,
    FormatTitle: string -> string,
    AssetsFS: FileSystem,
    StaticFS: FileSystem,
    PageDirectory: string,
    TemplateExtension: string,
    TemplateFuncMap: map<string, Helper>,
    FsDirectory: string)

  /** A configuration with every default in place and default-SEO merging off. */
  function New(files: FileSystem, statics: FileSystem, assets: FileSystem): (g: Golatt)
    ensures g.Files == files && g.StaticFS == statics && g.AssetsFS == assets
    ensures forall t :: g.FormatTitle(t) == t
    ensures g.Templates == [] && g.TemplateFuncMap == map[] && g.DefaultSeoData.None?
    ensures g.InitialSection == "base" && g.PageDirectory == "page" && g.TemplateExtension == "gohtml"
    ensures g.FsDirectory == ""
  {
    Golatt(
      Files := files,
      Templates := [],
      DefaultSeoData := None,
      InitialSection := "base",
      FormatTitle := t => t,
      AssetsFS := assets,
      StaticFS := statics,
      PageDirectory := "page",
      TemplateExtension := "gohtml",
      TemplateFuncMap := map[],
      FsDirectory := "")
  }

  /** The path under which `name` is looked up in a tree rooted at folder `prefix`. */
  function PrefixedPath(prefix: string, name: string): (r: string)
    ensures |r| == |prefix| + 1 + |name|
    ensures r[..|prefix|] == prefix && r[|prefix|] == '/' && r[|prefix| + 1..] == name
  {
    prefix + "/" + name
  }

  /** Neither starts nor ends with a slash, as the folder given to `UsableEmbedFS` must. */
  predicate NoEdgeSlash(s: string)
  {
    s != [] ==> s[0] != '/' && s[|s| - 1] != '/'
  }

  /** An embedded file tree seen from its sub-folder `prefix`. */
  datatype HttpEmbedFS = HttpEmbedFS(prefix: string, FS: FileSystem)
  {
    /** Opens `name` of the sub-folder: the embedded tree is asked for `prefix/name`. */
    function Open(name: string): (r: Result<File>)
      ensures r == FS.open(PrefixedPath(prefix, name))
    {
      FS.open(PrefixedPath(prefix, name))
    }

    /** Reads `name` of the sub-folder: the embedded tree is asked for `prefix/name`. */
    function ReadFile(name: string): (r: Result<seq<byte>>)
      ensures r == FS.readFile(PrefixedPath(prefix, name))
    {
      FS.readFile(PrefixedPath(prefix, name))
    }

    /** Lists `name` of the sub-folder: the embedded tree is asked for `prefix/name`. */
    function ReadDir(name: string): (r: Result<seq<DirEntry>>)
      ensures r == FS.readDir(PrefixedPath(prefix, name))
    {
      FS.readDir(PrefixedPath(prefix, name))
    }
  }

  /** The file system whose root is `folder` of `em`: every query goes to `folder + "/" + name`. */
  function UsableEmbedFS(folder: string, em: FileSystem): (r: FileSystem)
    requires NoEdgeSlash(folder)
    ensures forall name :: r.open(name) == em.open(PrefixedPath(folder, name))
    ensures forall name :: r.readFile(name) == em.readFile(PrefixedPath(folder, name))
    ensures forall name :: r.readDir(name) == em.readDir(PrefixedPath(folder, name))
  {
    var h := HttpEmbedFS(folder, em);
    FileSystem(name => h.Open(name), name => h.ReadFile(name), name => h.ReadDir(name))
  }

  /**
   * When the folder and the name both keep to the no-edge-slash rule, so
   * does the looked-up path, and the separator sits between two non-slash
   * characters: the path has no empty segment at the join.
   */
  lemma PrefixedPathWellFormed(folder: string, name: string)
    requires folder != [] && NoEdgeSlash(folder)
    requires name != [] && NoEdgeSlash(name)
    ensures NoEdgeSlash(PrefixedPath(folder, name))
    ensures PrefixedPath(folder, name)[|folder| - 1] != '/'
    ensures PrefixedPath(folder, name)[|folder| + 1] != '/'
  {
  }

}
