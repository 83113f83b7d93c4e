# golatt rendering pipeline in Dafny

A model of the page-rendering core of golatt, a Go façade over an HTTP
router and `html/template`. A page (`Template`) has a name, a title, custom
data and optional SEO inputs (image, description, URL). Each request for it
builds a `TemplateData` record. `Render` formats the title and merges the
site-wide `DefaultSeoData` into the record's `SeoData`. It then parses the
shared templates and the page's own file, executes the initial section, and
writes status 500 when execution fails. The configuration record `Golatt`
and its defaults (`New`) feed this pipeline. So does `UsableEmbedFS`, which
serves an embedded file tree from one of its sub-folders.

Modules, one per concern:

- `Wrappers`: `Option`, standing for Go's nil pointers.
- `Fs`: a file system (`fs.FS` with `ReadFile` and `ReadDir`) as the record
  of its three query operations. Files, directory entries and errors are
  abstract.
- `Data`: `SeoData` and `TemplateData`. They are classes because the
  pipeline updates them in place, and `Value()` gives their value. The
  module also holds the `/static/` and `/assets/` path helpers.
- `Golatt`: the configuration record, `New`, and `httpEmbedFS` /
  `UsableEmbedFS`.
- `Engine`: `html/template` as two oracles. One says whether a pattern
  parses. The other says what executing a section of a parsed set writes,
  and whether it fails. The module also holds the response writer (body
  bytes and `WriteHeader` calls).
- `Templates`: `mergeData`, `getFile`, `setupTemplates`, `Render`, the
  `Template` record and its handlers.

The model follows the code as written, including these points:

- `setupTemplates` parses each shared template into a new set and
  overwrites the previous one. The set it returns holds only the last
  shared template, and it is nil for an empty list. It does not hold all of
  them.
- `HandleSimpleTemplate`'s handler builds the page and calls `Handle`, but
  it drops the handler that call returns. It therefore renders nothing and
  writes nothing.
- The page file path starts with `FsDirectory`. This folder is not
  declared in the `Golatt` record of golatt.go. The model adds it as one
  more configuration string, which `New` leaves empty (Go's zero value).
  The documentation of `Render` places pages at
  `templates/page/<name>.gohtml`, which needs `FsDirectory` to be
  `templates`. With `New`'s empty value the page path starts with `/`,
  which io/fs rejects as a path (`PageFileUnderNew`).
- An empty shared-template list is not rejected when the set is built.
  `Render` then executes a nil template set, which panics. The model makes
  a non-empty list a precondition of `Render`, like the other panics.
- `Handle` registers no route. The page URL only feeds the SEO block.
- `UsableEmbedFS("", em)` keeps the folder rule of golatt.go:130, yet it
  sends every lookup to `/<name>`, a path io/fs rejects.

The comment on `SeoData.Title` says the title is always replaced, but
`mergeData` replaces it only when `DefaultSeoData` is set; the model
follows `mergeData` (`Merged`, `MergeUnderNewIsIdentity`).

Panics of `template.Must` and the nil-pointer dereference in `mergeData`
(defaults configured, no SEO block) are preconditions.

## Model

| member | source | states |
|---|---|---|
| `Data.SeoData.constructor` | templates.go:10-21 | a new SEO record holds exactly the five given fields |
| `Data.TemplateData.constructor` | templates.go:24-31 | a new page record holds the given title, SEO pointer and data |
| `Data.StaticPath` | templates.go:73-75 | the static URL is `/static/` followed by the path, which can be read back from it |
| `Data.AssetsPath` | templates.go:77-79 | the assets URL is `/assets/` followed by the path, which can be read back from it |
| `Data.TemplateData.GetStaticPath` | templates.go:81-84 | the template-facing method returns the same URL as `StaticPath` |
| `Data.TemplateData.GetAssetsPath` | templates.go:86-89 | the template-facing method returns the same URL as `AssetsPath` |
| `Data.StaticPathInjective` | templates.go:73-75 | distinct files get distinct static URLs |
| `Data.StaticAssetsDisjoint` | templates.go:73-79 | no static URL equals an assets URL |
| `Golatt.New` | golatt.go:56-72 | identity title formatting; `base`, `page`, `gohtml`; no shared templates, no helpers, no SEO defaults; the three file systems stored unchanged |
| `Golatt.PrefixedPath` | golatt.go:116-126 | the looked-up path is the folder, one `/`, then the name, each recoverable |
| `Golatt.UsableEmbedFS` | golatt.go:111-136 | with a folder that has no edge slash, `Open`, `ReadFile` and `ReadDir` of the wrapper each query the embedded tree at `folder/name` |
| `Golatt.PrefixedPathWellFormed` | golatt.go:128-135 | with a non-empty folder and a non-empty name, both without edge slashes, the looked-up path has no edge slash and no empty segment at the join |
| `Golatt.HttpEmbedFS.Open` | golatt.go:116-118 | opening `name` asks the embedded tree for `prefix/name` |
| `Golatt.HttpEmbedFS.ReadFile` | golatt.go:120-122 | reading `name` asks the embedded tree for `prefix/name` |
| `Golatt.HttpEmbedFS.ReadDir` | golatt.go:124-126 | listing `name` asks the embedded tree for `prefix/name` |
| `Templates.MergeSeo` | templates.go:46-54 | domain and title always replaced; image and description kept unless empty, else the default's; URL untouched |
| `Templates.Merged` | templates.go:41-55 | the title is always formatted and the data kept; without defaults the SEO block is unchanged (its title included); with defaults it is `MergeSeo` under the formatted title |
| `Templates.MergeData` | templates.go:41-55 | the in-place merge leaves the record equal to `Merged` of its old value and keeps the same SEO pointer |
| `Templates.MergeIdempotent` | templates.go:41-55 | when title formatting is idempotent on the result, merging twice equals merging once |
| `Templates.MergeSeoEmptyOnlyIfBoth` | templates.go:49-54 | a merged image or description is empty exactly when both the page's and the default's are |
| `Templates.MergeUnderNewIsIdentity` | templates.go:41-45 | under the configuration `New` builds, merging leaves the page data unchanged |
| `Templates.GetFile` | templates.go:69-71 | the page file is the page prefix, then the name, then `.` and the extension |
| `Templates.PageNameOfGetFile` | templates.go:69-71 | the page name is recovered from its file path |
| `Templates.GetFileOfPageName` | templates.go:69-71 | every path the inverse accepts is the file of the page it names |
| `Templates.GetFileInjective` | templates.go:69-71 | distinct page names resolve to distinct files |
| `Templates.PageFileUnderNew` | templates.go:57-71 | under `New` the page file of `name` is `/page/<name>.gohtml`, starting with `/`; with `FsDirectory` set to `templates` it is `templates/page/<name>.gohtml` |
| `Templates.SetupTemplates` | templates.go:33-39 | the result is nil exactly for an empty list, else the set parsed from the last shared template alone |
| `Templates.Render` | templates.go:58-67 | the data is merged in place; the body gets what executing the last shared template plus the page file wrote; status 500 is written exactly when execution fails |
| `Templates.RequestSeo` | templates.go:112-121 | the URL is the page's or `/` and its name; the image is its static URL when given, else empty; the description is copied |
| `Templates.NewRequestSeo` | templates.go:112-121 | the freshly allocated SEO record holds `RequestSeo` of the page |
| `Templates.Handle` | templates.go:110-128 | returns the page handler of `t`, which `Serve` runs on a request |
| `Templates.HandleSimpleTemplate` | templates.go:131-143 | returns the simple handler for the name and title, which `Serve` runs on a request |
| `Templates.Serve` | templates.go:110-143 | a page handler renders `RequestData` of its page through `Render`; the simple-template handler leaves the response untouched |
| `Templates.RequestMerge` | templates.go:110-128 | a request rendered with defaults keeps its route, takes the default domain and formatted title, and falls back to the default image and description only where the page has none |
| `Templates.HomePageScenario` | templates.go:110-128 | the `home` page with image `logo.png` under defaults `ex.com` / `default.png` / `Site` renders URL `/home`, image `/static/logo.png`, description `Site` |

## Left out

- `StartServer`, the router (`mux.Router`, path prefixes, `http.FileServerFS`) and `NotFoundHandler`: HTTP listening, goroutines, signal handling and timed shutdown are concurrency and I/O.
- main.go: an older revision of the `Golatt` record whose only behaviour is server start-up. main.go is not part of this model.
- Parsing and executing templates, and reading files: they belong to `html/template` and `io/fs` and are oracles here. The shared-template entries and the page file are glob patterns to `ParseFS`; which files a pattern matches, and the error for a pattern that matches none, are left to the parse oracle. A parsed set records only which patterns went into it.
- The `slog` error record written next to status 500.
- What `net/http` does with a `WriteHeader` that follows body bytes. The model records the call in order after the bytes.
- `TemplateFuncMap` contents: the helpers are never registered with the templates, so only the empty map `New` creates is modelled.
- `Golatt.DefaultSeoData` is a pointer in Go. The model holds its value, so a page whose SEO pointer aliases the defaults is not modelled.
- The request argument of the handlers: they never read it.
- `Handle`, `Serve`: the Go closure holds a `*Template`, whose `Golatt` field is a `*Golatt`, and reads both when a request arrives, so later changes to the page or the configuration are seen. The model's handler holds the page and configuration values as they were when the handler was built.
- `UsableEmbedFS`: the model accepts any file system, where Go accepts only an `embed.FS` (so a wrapped tree cannot be wrapped again).
- `Render`, `Handle`: a nil `Template.Golatt` or a nil `FormatTitle` panics in Go; the model's configuration is a value holding a total `FormatTitle`, so neither case arises. Likewise a nil `data` passed to `Render` panics at `d.Title` in `mergeData` (templates.go:42); the model's `TemplateData` parameter is non-null.
- Concurrent requests: each render works on its own freshly allocated records, and the configuration is only read.
