/**
 * The records a render works on (templates.go): the SEO block of a page
 * (`SeoData`), the payload handed to the template engine (`TemplateData`),
 * and the two path helpers templates use to reference static files and
 * assets.
 *
 * Both records are updated in place by the rendering pipeline, so they are
 * classes; `Value()` gives the value of one at a given moment.
 */
module Data {
  import opened Wrappers

  /** The value of a `SeoData` record. */
  datatype Seo = Seo(Title: string, URL: string, Image: string, Description: string, Domain: string)

  /** The caller's custom data (`interface{}`), not interpreted; `Nil` is Go's nil. */
  type Opaque(==)
  datatype Payload = Nil | Value(v: Opaque)

  /** The value of a `TemplateData` record; an `SEO` of `None` is a nil pointer. */
  datatype PageData = PageData(Title: string, SEO: Option<Seo>, Data: Payload)

  /** Open Graph / Twitter metadata of one page. */
  class SeoData {
    var Title: string
    var URL: string
    var Image: string
    var Description: string
    var Domain: string

    constructor (title: string, url: string, image: string, description: string, domain: string)
      ensures Value() == Seo(title, url, image, description, domain)
    {
      Title, URL, Image, Description, Domain := title, url, image, description, domain;
    }

    function Value(): Seo
      reads this
    {
      Seo(Title, URL, Image, Description, Domain)
    }
  }

  /** What a template is executed against. */
  class TemplateData {
    var Title: string
    var SEO: SeoData?
    var Data: Payload

    constructor (title: string, seo: SeoData?, data: Payload)
      ensures Title == title && SEO == seo && Data == data
    {
      Title, SEO, Data := title, seo, data;
    }

    function Value(): PageData
      reads this, SEO
    {
      PageData(Title, if SEO == null then None else Some(SEO.Value()), Data)
    }

    /** The template-facing spelling of `StaticPath`; the receiver plays no part. */
    function GetStaticPath(path: string): (r: string)
      ensures r == StaticPath(path)
    {
      StaticPath(path)
    }

    /** The template-facing spelling of `AssetsPath`; the receiver plays no part. */
    function GetAssetsPath(path: string): (r: string)
      ensures r == AssetsPath(path)
    {
      AssetsPath(path)
    }
  }

  const StaticPrefix: string := "/static/"
  const AssetsPrefix: string := "/assets/"

  /** The URL under which the static file server exposes `path`. */
  function StaticPath(path: string): (r: string)
    ensures |r| == |StaticPrefix| + |path|
    ensures r[..|StaticPrefix|] == StaticPrefix && r[|StaticPrefix|..] == path
  {
    StaticPrefix + path
  }

  /** The URL under which the assets file server exposes `path`. */
  function AssetsPath(path: string): (r: string)
    ensures |r| == |AssetsPrefix| + |path|
    ensures r[..|AssetsPrefix|] == AssetsPrefix && r[|AssetsPrefix|..] == path
  {
    AssetsPrefix + path
  }

  /** Different files get different static URLs. */
  lemma StaticPathInjective(p: string, q: string)
    requires StaticPath(p) == StaticPath(q)
    ensures p == q
  {
  }

  /** A static URL is never an assets URL, so the two file servers never compete for a path. */
  lemma StaticAssetsDisjoint(p: string, q: string)
    ensures StaticPath(p) != AssetsPath(q)
  {
  }
}
