/** `TemplateBundleFileLoader`: reads a template bundle directory, its
    `index.json` descriptor and its template files. JSON parsing is an oracle. */
module TemplateBundles {
  import opened Wrappers
  import opened Json
  import Text
  import opened FileSystems

  /** The prefix every failure of reading or validating `index.json` carries. */
  const ParseFailure: string := "Failed to parse index.json: "

  /** The acceptance rule of `loadConfig` on a parsed descriptor: `name` is
      truthy and `templates` is an array. Reading `name` of `null` throws. */
  function CheckConfig(raw: Json): Result<Json> {
    if raw.JNull? then Err("Cannot read properties of null (reading 'name')")
    else if !(Field(raw, "name").Some? && Truthy(Field(raw, "name").value)) || !(Field(raw, "templates").Some? && Field(raw, "templates").value.JArray?) then
      Err("Invalid index.json format: Missing required fields")
    else Ok(raw)
  }

  /** A descriptor is accepted exactly when it names the bundle and lists its
      templates, and is then returned as it was parsed. */
  lemma AcceptedConfig(raw: Json)
    ensures CheckConfig(raw).Ok? <==>
      Field(raw, "name").Some? && Truthy(Field(raw, "name").value) && Field(raw, "templates").Some? && Field(raw, "templates").value.JArray?
    ensures CheckConfig(raw).Ok? ==> CheckConfig(raw).value == raw
  {
  }

  /** `path.join(bundle, 'index.json')`. */
  function IndexPath(bundle: string): string {
    Text.PathJoin(bundle, "index.json")
  }

  /** `loadConfig` over file-system state `s`: a missing `index.json` fails
      plainly; any failure to read, parse or accept it is re-wrapped with
      `ParseFailure` (the validation error is thrown inside the same `try`). */
  function LoadConfigFrom(s: FsState, bundle: string, parse: string -> Result<Json>): Result<Json> {
    var indexPath := IndexPath(bundle);
    if !Exists(s, indexPath) then Err("index.json not found in template bundle: " + indexPath)
    else if indexPath !in s.files then Err(ParseFailure + DirectoryReadError)
    else match parse(s.files[indexPath])
      case Err(e) => Err(ParseFailure + e)
      case Ok(raw) =>
        match CheckConfig(raw)
        case Err(e) => Err(ParseFailure + e)
        case Ok(config) => Ok(config)
  }

  /** The outcomes of `loadConfig`: the fixed not-found message, a wrapped
      failure, or the accepted descriptor as parsed. */
  lemma LoadConfigOutcomes(s: FsState, bundle: string, parse: string -> Result<Json>)
    ensures !Exists(s, IndexPath(bundle)) ==>
      LoadConfigFrom(s, bundle, parse) == Err("index.json not found in template bundle: " + IndexPath(bundle))
    ensures Exists(s, IndexPath(bundle)) && LoadConfigFrom(s, bundle, parse).Err? ==>
      Text.StartsWith(LoadConfigFrom(s, bundle, parse).error, ParseFailure)
    ensures LoadConfigFrom(s, bundle, parse).Ok? ==>
      && IndexPath(bundle) in s.files
      && parse(s.files[IndexPath(bundle)]) == LoadConfigFrom(s, bundle, parse)
      && CheckConfig(LoadConfigFrom(s, bundle, parse).value).Ok?
  {
    var r := LoadConfigFrom(s, bundle, parse);
    var indexPath := IndexPath(bundle);
    if Exists(s, indexPath) && r.Err? {
      var inner :=
        if indexPath !in s.files then DirectoryReadError
        else if parse(s.files[indexPath]).Err? then parse(s.files[indexPath]).error
        else CheckConfig(parse(s.files[indexPath]).value).error;
      assert r.error == ParseFailure + inner;
      assert (ParseFailure + inner)[..|ParseFailure|] == ParseFailure;
    }
  }

  /** The `file.includes('.')` filter of `loadTemplateFiles`. */
  predicate IsTemplateFileName(name: string) {
    '.' in name
  }

  /** The files of the bundle directory `loadTemplateFiles` keeps. */
  function TemplateNames(names: set<string>): set<string> {
    set n | n in names && IsTemplateFileName(n)
  }

  class TemplateBundleFileLoader {
    const templateBundlePath: string
    const fs: FileSystem
    /** `JSON.parse`. */
    const parse: string -> Result<Json>
    var config: Option<Json>
    var templateFiles: Option<map<string, string>>

    constructor(templateBundlePath: string, fs: FileSystem, parse: string -> Result<Json>)
      ensures this.templateBundlePath == templateBundlePath && this.fs == fs && this.parse == parse
      ensures config == None && templateFiles == None
    {
      this.templateBundlePath := templateBundlePath;
      this.fs := fs;
      this.parse := parse;
      config := None;
      templateFiles := None;
    }

    method LoadConfig() returns (r: Result<Json>)
      ensures r == LoadConfigFrom(fs.state, templateBundlePath, parse)
    {
      var indexPath := IndexPath(templateBundlePath);
      if !fs.PathExists(indexPath) {
        return Err("index.json not found in template bundle: " + indexPath);
      }
      var text := fs.ReadFile(indexPath);
      if text.Err? {
        return Err(ParseFailure + text.error);
      }
      var raw := parse(text.value);
      if raw.Err? {
        return Err(ParseFailure + raw.error);
      }
      var checked := CheckConfig(raw.value);
      if checked.Err? {
        return Err(ParseFailure + checked.error);
      }
      return Ok(raw.value);
    }

    /** `loadTemplateFiles`: every directory entry whose name holds a `.`,
        keyed by name and mapped to its text; the first entry that cannot be
        read (a directory, say) aborts with its error. */
    method LoadTemplateFiles() returns (r: Result<map<string, string>>)
      ensures fs.ReadDir(templateBundlePath).Err? ==> r == Err(fs.ReadDir(templateBundlePath).error)
      ensures r.Ok? ==>
        && fs.ReadDir(templateBundlePath).Ok?
        && r.value.Keys == TemplateNames(fs.ReadDir(templateBundlePath).value)
        && forall n | n in r.value :: fs.ReadFile(Text.PathJoin(templateBundlePath, n)) == Ok(r.value[n])
      ensures fs.ReadDir(templateBundlePath).Ok? ==>
        (r.Err? <==> exists n | n in TemplateNames(fs.ReadDir(templateBundlePath).value) :: fs.ReadFile(Text.PathJoin(templateBundlePath, n)).Err?)
    {
      var listing := fs.ReadDir(templateBundlePath);
      if listing.Err? {
        return Err(listing.error);
      }
      var names := TemplateNames(listing.value);
      var templates: map<string, string> := map[];
      var remaining := names;
      while remaining != {}
        invariant remaining <= names
        invariant templates.Keys == names - remaining
        invariant forall n | n in templates :: fs.ReadFile(Text.PathJoin(templateBundlePath, n)) == Ok(templates[n])
        decreases |remaining|
      {
        var file :| file in remaining;
        var content := fs.ReadFile(Text.PathJoin(templateBundlePath, file));
        if content.Err? {
          return Err(content.error);
        }
        templates := templates[file := content.value];
        remaining := remaining - {file};
      }
      return Ok(templates);
    }

    /** Every template file of the bundle can be read. */
    predicate FilesReadable()
      reads this, fs
    {
      && fs.ReadDir(templateBundlePath).Ok?
      && forall n | n in TemplateNames(fs.ReadDir(templateBundlePath).value) :: fs.ReadFile(Text.PathJoin(templateBundlePath, n)).Ok?
    }

    /** `initialize`: the descriptor first, then the files. A failure of the
        descriptor leaves both unset; a failure of the files leaves the
        descriptor set and the files unset. */
    method Initialize() returns (outcome: Outcome)
      modifies this
      ensures outcome.Pass? <==> LoadConfigFrom(fs.state, templateBundlePath, parse).Ok? && FilesReadable()
      ensures LoadConfigFrom(fs.state, templateBundlePath, parse).Err? ==>
        && outcome == Fail(LoadConfigFrom(fs.state, templateBundlePath, parse).error)
        && config == old(config) && templateFiles == old(templateFiles)
      ensures LoadConfigFrom(fs.state, templateBundlePath, parse).Ok? ==>
        config == Some(LoadConfigFrom(fs.state, templateBundlePath, parse).value)
      ensures outcome.Fail? && LoadConfigFrom(fs.state, templateBundlePath, parse).Ok? ==> templateFiles == old(templateFiles)
      ensures outcome.Pass? ==>
        && templateFiles.Some?
        && templateFiles.value.Keys == TemplateNames(fs.ReadDir(templateBundlePath).value)
        && forall n | n in templateFiles.value :: fs.ReadFile(Text.PathJoin(templateBundlePath, n)) == Ok(templateFiles.value[n])
    {
      var c := LoadConfig();
      if c.Err? {
        return Fail(c.error);
      }
      config := Some(c.value);
      var files := LoadTemplateFiles();
      if files.Err? {
        return Fail(files.error);
      }
      templateFiles := Some(files.value);
      return Pass;
    }

    function GetConfig(): Option<Json>
      reads this
    {
      config
    }

    function GetTemplateFiles(): Option<map<string, string>>
      reads this
    {
      templateFiles
    }
  }
}
