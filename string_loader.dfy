// tmpl/loader/string.go: templates held in memory, keyed by name.
module StringLoaders {

  import opened Wrappers
  import opened Errors
  import opened GoStrings
  import opened Loaders

  class StringLoader {
    const base: BaseLoader
    const templates: map<string, string>

    /** NewString: the map as given, and the system's separator. */
    constructor NewString(templates: map<string, string>, config: LoaderConfig)
      ensures base == NewBase(config, false) && this.templates == templates
      ensures Extension() == config.extension
    {
      base := NewBase(config, false);
      this.templates := templates;
    }

    /** Load: every key that passes the extension filter, once each, in the
        arbitrary order of Go's map iteration; it never fails. */
    method Load(pattern: string) returns (r: Result<seq<string>, Error>)
      ensures r.Ok?
      ensures NoDup(r.value)
      ensures forall n :: n in r.value <==> n in templates && HasValidExtension(base, n)
    {
      var names: seq<string> := [];
      var keys := templates.Keys;
      while keys != {}
        invariant keys <= templates.Keys
        invariant NoDup(names)
        invariant forall n :: n in names ==> n !in keys
        invariant forall n :: n in names <==> n in templates && n !in keys && HasValidExtension(base, n)
        decreases keys
      {
        var name :| name in keys;
        keys := keys - {name};
        if HasValidExtension(base, name) {
          names := names + [name];
        }
      }
      r := Ok(names);
    }

    /** Read: the stored content of any present key, whatever its extension. */
    function Read(name: string): (r: Result<string, Error>)
      ensures name in templates ==> r == Ok(templates[name])
      ensures name !in templates ==> r.Err? && r.error == NotFound(name) && Is(r.error, TemplateNotFound)
    {
      if name in templates then Ok(templates[name]) else Err(NotFound(name))
    }

    function Extension(): string
    {
      base.extension
    }
  }
}
