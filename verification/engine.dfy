/**
 * The template engine and the HTTP response, as the rendering pipeline sees
 * them. Parsing and executing templates belong to Go's html/template and are
 * not interpreted: the engine is a pair of oracles saying whether a pattern
 * parses and what executing a section of a parsed set writes.
 */
module Engine {
  import opened Wrappers
  import opened Fs
  import opened Data

  /**
   * One parse request: the file system it reads from and the glob pattern
   * it was given. Which files the pattern matches is the engine's business.
   */
  datatype Source = Source(fsys: FileSystem, pattern: string)

  /** A parsed template set: the patterns parsed into it, in parse order. */
  datatype TemplateSet = TemplateSet(sources: seq<Source>)

  /** The bytes execution wrote before it stopped, and its error if it failed. */
  datatype ExecOutcome = ExecOutcome(written: seq<byte>, err: Option<string>)

  /**
   * `parses(fsys, pattern)` holds when the pattern matches at least one file
   * of `fsys` and every match parses; `execute` runs a named section.
   */
  datatype Engine = Engine(
    parses: (FileSystem, string) -> bool,
    execute: (TemplateSet, string, PageData) -> ExecOutcome)

  /** `template.Must(template.ParseFS(fsys, pattern))`: a new set holding what the pattern matches. */
  function MustParseFS(e: Engine, fsys: FileSystem, pattern: string): TemplateSet
    requires e.parses(fsys, pattern)
  {
    TemplateSet([Source(fsys, pattern)])
  }

  /** `template.Must(t.ParseFS(fsys, pattern))`: what the pattern matches is added to the set `t`. */
  function MustParseInto(e: Engine, t: TemplateSet, fsys: FileSystem, pattern: string): TemplateSet
    requires e.parses(fsys, pattern)
  {
    TemplateSet(t.sources + [Source(fsys, pattern)])
  }

  const StatusInternalServerError: int := 500

  /** The response of one request: its body and the status codes written, in order. */
  class ResponseWriter {
    var body: seq<byte>
    var statuses: seq<int>

    constructor ()
      ensures body == [] && statuses == []
    {
      body, statuses := [], [];
    }

    method Write(bytes: seq<byte>)
      modifies this
      ensures body == old(body) + bytes && statuses == old(statuses)
    {
      body := body + bytes;
    }

    method WriteHeader(code: int)
      modifies this
      ensures statuses == old(statuses) + [code] && body == old(body)
    {
      statuses := statuses + [code];
    }
  }
}
