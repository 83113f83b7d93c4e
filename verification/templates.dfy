/**
 * The page-rendering pipeline (templates.go): merging site-wide SEO
 * defaults into a page's data, resolving a page name to its template file,
 * building the template set, executing it, and the per-request handlers
 * that feed it.
 */
module Templates {
  import opened Wrappers
  import opened Fs
  import opened Data
  import opened Golatt
  import opened Engine

  // ---------------------------------------------------------------------
  // Merging SEO defaults (mergeData)
  // ---------------------------------------------------------------------

  /** A caller-supplied field, unless it is empty. */
  function OrDefault(value: string, default: string): string
  {
    if value == "" then default else value
  }

  /**
   * The SEO block once the site-wide defaults `def` are merged in under the
   * formatted page title: domain and title are always replaced, image and
   * description are the caller's unless left empty, the URL is the caller's.
   */
  function MergeSeo(def: Seo, title: string, s: Seo): (r: Seo)
    ensures r.Domain == def.Domain && r.Title == title && r.URL == s.URL
    ensures s.Image != "" ==> r.Image == s.Image
    ensures s.Image == "" ==> r.Image == def.Image
    ensures s.Description != "" ==> r.Description == s.Description
    ensures s.Description == "" ==> r.Description == def.Description
  {
    s.(Domain := def.Domain,
       Title := title,
       Image := OrDefault(s.Image, def.Image),
       Description := OrDefault(s.Description, def.Description))
  }

  /** Merging needs an SEO block to write into exactly when defaults are configured. */
  predicate Mergeable(g: Golatt, d: PageData)
  {
    g.DefaultSeoData.Some? ==> d.SEO.Some?
  }

  /** The page data after `mergeData`. */
  function Merged(g: Golatt, d: PageData): (r: PageData)
    requires Mergeable(g, d)
    ensures r.Title == g.FormatTitle(d.Title) && r.Data == d.Data
    ensures g.DefaultSeoData.None? ==> r.SEO == d.SEO
    ensures g.DefaultSeoData.Some? ==> r.SEO == Some(MergeSeo(g.DefaultSeoData.value, r.Title, d.SEO.value))
  {
    var title := g.FormatTitle(d.Title);
    match g.DefaultSeoData
    case None => d.(Title := title)
    case Some(def) => d.(Title := title, SEO := Some(MergeSeo(def, title, d.SEO.value)))
  }

  /**
   * Formats the title of `d` and, when defaults are configured, merges them
   * into the SEO block `d` points to, in place.
   */
  method MergeData(g: Golatt, d: TemplateData)
    requires g.DefaultSeoData.Some? ==> d.SEO != null
    modifies d, d.SEO
    ensures d.SEO == old(d.SEO) && d.Value() == Merged(g, old(d.Value()))
  {
    d.Title := g.FormatTitle(d.Title);
    if g.DefaultSeoData.None? {
      return;
    }
    var def := g.DefaultSeoData.value;
    var s := d.SEO;
    s.Domain := def.Domain;
    s.Title := d.Title;
    if s.Image == "" {
      s.Image := def.Image;
    }
    if s.Description == "" {
      s.Description := def.Description;
    }
  }

  /** Merging twice is merging once, provided title formatting is idempotent on the result. */
  lemma MergeIdempotent(g: Golatt, d: PageData)
    requires Mergeable(g, d)
    requires g.FormatTitle(g.FormatTitle(d.Title)) == g.FormatTitle(d.Title)
    ensures Mergeable(g, Merged(g, d)) && Merged(g, Merged(g, d)) == Merged(g, d)
  {
  }

  /** Merging fills an image or description only with something non-empty unless both sides were empty. */
  lemma MergeSeoEmptyOnlyIfBoth(def: Seo, title: string, s: Seo)
    ensures MergeSeo(def, title, s).Image == "" <==> s.Image == "" && def.Image == ""
    ensures MergeSeo(def, title, s).Description == "" <==> s.Description == "" && def.Description == ""
  {
  }

  /** Under the configuration `New` builds, merging changes nothing at all. */
  lemma MergeUnderNewIsIdentity(files: FileSystem, statics: FileSystem, assets: FileSystem, d: PageData)
    ensures Mergeable(New(files, statics, assets), d)
    ensures Merged(New(files, statics, assets), d) == d
  {
  }

  // ---------------------------------------------------------------------
  // Page files (getFile)
  // ---------------------------------------------------------------------

  /** What every page file path starts with. */
  function PageFilePrefix(g: Golatt): string
  {
    g.FsDirectory + "/" + g.PageDirectory + "/"
  }

  /** What every page file path ends with. */
  function PageFileSuffix(g: Golatt): string
  {
    "." + g.TemplateExtension
  }

  /** The template file of page `path`: the page directory, the name, the template extension. */
  function GetFile(g: Golatt, path: string): (r: string)
    ensures |r| == |PageFilePrefix(g)| + |path| + |PageFileSuffix(g)|
    ensures r[..|PageFilePrefix(g)|] == PageFilePrefix(g)
    ensures r[|PageFilePrefix(g)| + |path|..] == PageFileSuffix(g)
    ensures r[|PageFilePrefix(g)|..|PageFilePrefix(g)| + |path|] == path
  {
    var r := g.FsDirectory + "/" + g.PageDirectory + "/" + path + "." + g.TemplateExtension;
    assert r == PageFilePrefix(g) + path + PageFileSuffix(g);
    r
  }

  /** The page a file path belongs to, if it is a page file path at all. */
  function PageName(g: Golatt, file: string): Option<string>
  {
    var pre, suf := PageFilePrefix(g), PageFileSuffix(g);
    if |pre| + |suf| <= |file| && file[..|pre|] == pre && file[|file| - |suf|..] == suf
    then Some(file[|pre|..|file| - |suf|])
    else None
  }

  /** A page name is recovered from its file path. */
  lemma PageNameOfGetFile(g: Golatt, name: string)
    ensures PageName(g, GetFile(g, name)) == Some(name)
  {
  }

  /** Every page file path is the file of the page it names. */
  lemma GetFileOfPageName(g: Golatt, file: string)
    requires PageName(g, file).Some?
    ensures GetFile(g, PageName(g, file).value) == file
  {
  }

  /** Different pages resolve to different files. */
  lemma GetFileInjective(g: Golatt, a: string, b: string)
    requires GetFile(g, a) == GetFile(g, b)
    ensures a == b
  {
  }

  /**
   * Under `New`'s empty `FsDirectory` a page file path starts with "/", a
   * path io/fs does not accept; with `FsDirectory` set to "templates" it is
   * the "templates/page/<name>.gohtml" the documentation of `Render` names.
   */
  lemma PageFileUnderNew(files: FileSystem, statics: FileSystem, assets: FileSystem, name: string)
    ensures GetFile(New(files, statics, assets), name) == "/page/" + name + ".gohtml"
    ensures GetFile(New(files, statics, assets), name)[0] == '/'
    ensures GetFile(New(files, statics, assets).(FsDirectory := "templates"), name)
         == "templates/page/" + name + ".gohtml"
  {
    var g := New(files, statics, assets);
    assert GetFile(g, name) == "" + "/" + "page" + "/" + name + "." + "gohtml";
    assert GetFile(g.(FsDirectory := "templates"), name) == "templates" + "/" + "page" + "/" + name + "." + "gohtml";
  }

  // ---------------------------------------------------------------------
  // Template sets and rendering (setupTemplates, Render)
  // ---------------------------------------------------------------------

  /** Every shared template parses, as `template.Must` in `setupTemplates` demands. */
  predicate SharedTemplatesParse(g: Golatt, e: Engine)
  {
    forall i :: 0 <= i < |g.Templates| ==> e.parses(g.Files, g.Templates[i])
  }

  /**
   * Parses the shared templates one by one, each into a new set that
   * replaces the previous one: the result holds the last of them only, and
   * there is none when the list is empty.
   */
  method SetupTemplates(g: Golatt, e: Engine) returns (t: Option<TemplateSet>)
    requires SharedTemplatesParse(g, e)
    ensures |g.Templates| == 0 <==> t.None?
    ensures |g.Templates| > 0 ==> t == Some(TemplateSet([Source(g.Files, g.Templates[|g.Templates| - 1])]))
  {
    t := None;
    for i := 0 to |g.Templates|
      invariant i == 0 ==> t.None?
      invariant i > 0 ==> t == Some(TemplateSet([Source(g.Files, g.Templates[i - 1])]))
    {
      t := Some(MustParseFS(e, g.Files, g.Templates[i]));
    }
  }

  /** What `Render` needs to get as far as executing: a non-empty shared list and every parse succeeding. */
  predicate CanRender(g: Golatt, e: Engine, name: string)
  {
    && |g.Templates| > 0
    && SharedTemplatesParse(g, e)
    && e.parses(g.Files, GetFile(g, name))
  }

  /** The set `Render` executes for page `name`: the last shared template, then the page file. */
  function PageSet(g: Golatt, name: string): TemplateSet
    requires |g.Templates| > 0
  {
    TemplateSet([Source(g.Files, g.Templates[|g.Templates| - 1]), Source(g.Files, GetFile(g, name))])
  }

  /** What executing page `name` against the merged form of `d` produces. */
  function RenderOutcome(g: Golatt, e: Engine, name: string, d: PageData): ExecOutcome
    requires |g.Templates| > 0 && Mergeable(g, d)
  {
    e.execute(PageSet(g, name), g.InitialSection, Merged(g, d))
  }

  /**
   * Renders page `name`: merges the defaults into `data`, builds the set,
   * adds the page file, executes the initial section into `w`, and writes
   * status 500 exactly when execution fails.
   */
  method Render(g: Golatt, e: Engine, w: ResponseWriter, name: string, data: TemplateData)
    requires CanRender(g, e, name)
    requires g.DefaultSeoData.Some? ==> data.SEO != null
    modifies w, data, data.SEO
    ensures data.SEO == old(data.SEO) && data.Value() == Merged(g, old(data.Value()))
    ensures var out := RenderOutcome(g, e, name, old(data.Value()));
      && w.body == old(w.body) + out.written
      && w.statuses == old(w.statuses) + (if out.err.Some? then [StatusInternalServerError] else [])
  {
    MergeData(g, data);
    var t := SetupTemplates(g, e);
    var page := MustParseInto(e, t.value, g.Files, GetFile(g, name));
    assert page == PageSet(g, name);
    var out := e.execute(page, g.InitialSection, data.Value());
    w.Write(out.written);
    if out.err.Some? {
      w.WriteHeader(StatusInternalServerError);
    }
  }

  // ---------------------------------------------------------------------
  // Pages and their handlers (Template, Handle, HandleSimpleTemplate)
  // ---------------------------------------------------------------------

  /** A page: the name of its template file, its title, data and SEO inputs. */
  datatype Template = Template(
    Golatt: Golatt,
    Name: string,
    Title: string,
    Data: Payload,
    Image: string,
    Description: string,
    URL: string)

  /**
   * The SEO block a request for page `t` starts from: its URL (the page's
   * own, or "/" and its name), its image as a static URL when it has one,
   * its description; title and domain are left for the merge.
   */
  function RequestSeo(t: Template): (r: Seo)
    ensures t.URL != "" ==> r.URL == t.URL
    ensures t.URL == "" ==> r.URL == "/" + t.Name
    ensures t.Image != "" ==> r.Image == StaticPath(t.Image)
    ensures t.Image == "" ==> r.Image == ""
    ensures r.Description == t.Description && r.Title == "" && r.Domain == ""
  {
    Seo(
      Title := "",
      URL := if t.URL == "" then "/" + t.Name else t.URL,
      Image := if t.Image != "" then StaticPath(t.Image) else "",
      Description := t.Description,
      Domain := "")
  }

  /** The page data a request for page `t` hands to `Render`. */
  function RequestData(t: Template): PageData
  {
    PageData(t.Title, Some(RequestSeo(t)), t.Data)
  }

  /** Allocates the SEO block of one request for page `t`. */
  method NewRequestSeo(t: Template) returns (seo: SeoData)
    ensures fresh(seo) && seo.Value() == RequestSeo(t)
  {
    seo := new SeoData("", t.URL, "", t.Description, "");
    if seo.URL == "" {
      seo.URL := "/" + t.Name;
    }
    if t.Image != "" {
      seo.Image := StaticPath(t.Image);
    }
  }

  /** A request handler, as the closures `Handle` and `HandleSimpleTemplate` return. */
  datatype Handler =
    | PageHandler(page: Template)
    | SimpleHandler(g: Golatt, name: string, title: string)

  /** The handler that renders page `t`. */
  function Handle(t: Template): (h: Handler)
    ensures h.PageHandler? && h.page == t
  {
    PageHandler(t)
  }

  /** The handler for a page given by its name and title only. */
  function HandleSimpleTemplate(g: Golatt, name: string, title: string): (h: Handler)
    ensures h.SimpleHandler? && h.g == g && h.name == name && h.title == title
  {
    SimpleHandler(g, name, title)
  }

  /** What a handler needs to run without panicking. */
  predicate CanServe(h: Handler, e: Engine)
  {
    h.PageHandler? ==> CanRender(h.page.Golatt, e, h.page.Name)
  }

  /**
   * Runs handler `h` on one request. A page handler renders its page; a
   * simple handler builds the page and asks for its handler, but drops it
   * unrun, so it writes nothing.
   */
  method Serve(h: Handler, e: Engine, w: ResponseWriter)
    requires CanServe(h, e)
    modifies w
    ensures h.PageHandler? ==>
      var out := RenderOutcome(h.page.Golatt, e, h.page.Name, RequestData(h.page));
      && w.body == old(w.body) + out.written
      && w.statuses == old(w.statuses) + (if out.err.Some? then [StatusInternalServerError] else [])
    ensures h.SimpleHandler? ==> w.body == old(w.body) && w.statuses == old(w.statuses)
  {
    match h
    case PageHandler(t) =>
      var seo := NewRequestSeo(t);
      var data := new TemplateData(t.Title, seo, t.Data);
      Render(t.Golatt, e, w, t.Name, data);
    case SimpleHandler(g, name, title) =>
      var t := Template(g, name, title, Nil, "", "", "");
      var _ := Handle(t);
  }

  /**
   * A page rendered with defaults configured: its SEO block keeps its
   * route, takes the domain and the formatted title, and falls back to the
   * default image and description only where the page has none.
   */
  lemma RequestMerge(t: Template)
    requires t.Golatt.DefaultSeoData.Some?
    ensures var def := t.Golatt.DefaultSeoData.value;
      var s := Merged(t.Golatt, RequestData(t)).SEO.value;
      && s.URL == (if t.URL == "" then "/" + t.Name else t.URL)
      && s.Domain == def.Domain
      && s.Title == t.Golatt.FormatTitle(t.Title)
      && s.Image == (if t.Image == "" then def.Image else StaticPath(t.Image))
      && s.Description == (if t.Description == "" then def.Description else t.Description)
  {
  }

  /** The "home" page of a site whose defaults give a domain, an image and a description. */
  lemma HomePageScenario(g: Golatt)
    requires g.DefaultSeoData == Some(Seo("", "", "default.png", "Site", "ex.com"))
    requires g.FormatTitle("Home") == "Home"
    ensures Merged(g, RequestData(Template(g, "home", "Home", Nil, "logo.png", "", "")))
         == PageData("Home", Some(Seo("Home", "/home", "/static/logo.png", "Site", "ex.com")), Nil)
  {
    var t := Template(g, "home", "Home", Nil, "logo.png", "", "");
    assert RequestSeo(t) == Seo("", "/home", "/static/logo.png", "", "");
    assert Merged(g, RequestData(t)).SEO == Some(MergeSeo(g.DefaultSeoData.value, "Home", RequestSeo(t)));
  }
}
