/** `TemplateEngine`: compiles the templates of a bundle and generates the
    output files its descriptor asks for. Handlebars is a runtime object with
    a partial registry and an uninterpreted render function; the file system
    is observed through its journal of changes, the logger through the
    warnings it is given. */
module TemplateEngines {
  import opened Wrappers
  import opened Json
  import JsonPointer
  import Text
  import opened FileSystems
  import opened TemplateBundles

  /** `Handlebars.compile(source)`: a compiled template, known by its source. */
  datatype Compiled = Compiled(source: string)

  /** Rendering: a template, its context, and the partials and helpers
      registered at that moment. */
  type Renderer = (Compiled, Json, map<string, Compiled>, seq<string>) -> string

  /** The global Handlebars runtime: registered partials and helpers. */
  class Handlebars {
    var partials: map<string, Compiled>
    var helpers: seq<string>
    const render: Renderer

    constructor(render: Renderer)
      ensures partials == map[] && helpers == [] && this.render == render
    {
      partials := map[];
      helpers := [];
      this.render := render;
    }

    /** `Handlebars.registerPartial(name, template)`. */
    method RegisterPartial(name: string, template: Compiled)
      modifies this
      ensures partials == old(partials)[name := template] && helpers == old(helpers)
    {
      partials := partials[name := template];
    }

    /** `Handlebars.registerHelper(name, fn)`. */
    method RegisterHelper(name: string)
      modifies this
      ensures helpers == old(helpers) + [name] && partials == old(partials)
    {
      helpers := helpers + [name];
    }
  }

  // ---------------------------------------------------------------------
  // What processing does
  // ---------------------------------------------------------------------

  /** What the engine works with while generating: the compiled templates,
      the registered helpers, the output directory and the renderer. */
  datatype Env = Env(templates: map<string, Compiled>, helpers: seq<string>, outputDir: string, render: Renderer)

  /** What the engine warns about; `Message` gives the text it logs. */
  datatype Warning =
    | MissingPartial(name: string)
    | NotAnArray(key: string)
    | UnknownOutputType(outputType: Option<Json>)
    | SkippedTemplate(key: string)

  /** The text `console.warn` is given. */
  function Message(w: Warning): string {
    match w
    case MissingPartial(name) => "⚠️ Missing partial template: " + name
    case NotAnArray(key) => "⚠️ Expected array for repeated output, but found non-array for " + key
    case UnknownOutputType(outputType) => "⚠️ Unknown output-type: " + KeyText(outputType)
    case SkippedTemplate(key) => "⚠️ Skipping unknown template: " + key
  }

  /** The effects of a step: the file-system changes and warnings it made, in
      order, the partial registry it left, and the error that ended it. */
  datatype Effects = Effects(ops: seq<FsOp>, warnings: seq<Warning>, partials: map<string, Compiled>, error: Option<string>)

  function Quiet(reg: map<string, Compiled>): Effects {
    Effects([], [], reg, None)
  }

  function Warn(reg: map<string, Compiled>, w: Warning): Effects {
    Effects([], [w], reg, None)
  }

  function Failed(reg: map<string, Compiled>, message: string): Effects {
    Effects([], [], reg, Some(message))
  }

  /** `a` followed by `b`. */
  function Then(a: Effects, b: Effects): Effects {
    Effects(a.ops + b.ops, a.warnings + b.warnings, b.partials, b.error)
  }

  lemma ThenAssoc(a: Effects, b: Effects, c: Effects)
    ensures Then(a, Then(b, c)) == Then(Then(a, b), c)
  {
    assert a.ops + (b.ops + c.ops) == (a.ops + b.ops) + c.ops;
    assert a.warnings + (b.warnings + c.warnings) == (a.warnings + b.warnings) + c.warnings;
  }

  // ---------------------------------------------------------------------
  // JavaScript property access on parsed values
  // ---------------------------------------------------------------------

  /** `v[key]` where `v` may be `undefined` (None): reading a property of
      `undefined` or `null` throws; an object member or an array element is
      found by name; anything else has no such property. */
  function Member(v: Option<Json>, key: string): (r: Result<Option<Json>>)
    ensures r.Ok? <==> v.Some? && !v.value.JNull?
    ensures r.Ok? && v.value.JObject? ==> r.value == Get(v.value.members, key)
  {
    match v
    case None => Err("Cannot read properties of undefined (reading '" + key + "')")
    case Some(JNull) => Err("Cannot read properties of null (reading '" + key + "')")
    case Some(j) => Ok(JsonPointer.Step(j, key))
  }

  /** `output.replace('{{id}}', instance.id)`, in JavaScript's order of
      evaluation: the method is looked up on `output` first, then the
      argument is read, then the call is made. */
  function OutputName(output: Option<Json>, instance: Option<Json>): (r: Result<string>)
    ensures r.Ok? ==> instance.Some? && !instance.value.JNull?
  {
    if output.None? then Err("Cannot read properties of undefined (reading 'replace')")
    else if output.value.JNull? then Err("Cannot read properties of null (reading 'replace')")
    else match Member(instance, "id")
      case Err(e) => Err(e)
      case Ok(id) =>
        if output.value.JString? then Ok(Text.ReplaceFirst(output.value.s, "{{id}}", KeyText(id)))
        else Err("output.replace is not a function")
  }

  /** Only a textual output pattern, applied to an instance that is neither
      `undefined` nor `null`, names a file; it is the pattern with its first
      `{{id}}` replaced by the instance's `id`. */
  lemma OutputNameCases(output: Option<Json>, instance: Option<Json>)
    ensures OutputName(output, instance).Ok? <==>
      output.Some? && output.value.JString? && instance.Some? && !instance.value.JNull?
    ensures OutputName(output, instance).Ok? ==>
      OutputName(output, instance).value == Text.ReplaceFirst(output.value.s, "{{id}}", KeyText(JsonPointer.Step(instance.value, "id")))
  {
  }

  /** The names `for (const partial of partials)` visits: the elements of an
      array (as text), the characters of a string; any other value is not
      iterable. */
  function PartialNames(partials: Json): (r: Result<seq<string>>)
    ensures r.Ok? <==> partials.JArray? || partials.JString?
    ensures partials.JArray? ==>
      && r.Ok? && |r.value| == |partials.items|
      && forall i | 0 <= i < |partials.items| :: r.value[i] == KeyText(Some(partials.items[i]))
  {
    match partials
    case JArray(xs) => Ok(seq(|xs|, i requires 0 <= i < |xs| => KeyText(Some(xs[i]))))
    case JString(s) => Ok(seq(|s|, i requires 0 <= i < |s| => [s[i]]))
    case _ => Err("partials is not iterable")
  }

  // ---------------------------------------------------------------------
  // The specification of `processTemplate` and `generate`
  // ---------------------------------------------------------------------

  /** One listed partial: registered when compiled, warned about otherwise. */
  function PartialStep(env: Env, reg: map<string, Compiled>, name: string): Effects {
    if name in env.templates then Quiet(reg[name := env.templates[name]])
    else Warn(reg, MissingPartial(name))
  }

  function PartialsRun(env: Env, reg: map<string, Compiled>, names: seq<string>): Effects
    decreases |names|
  {
    if names == [] then Quiet(reg)
    else Then(PartialStep(env, reg, names[0]), PartialsRun(env, PartialStep(env, reg, names[0]).partials, names[1..]))
  }

  /** Writing one output file: its directory is created, then it is written
      with the render of its instance. */
  function WriteRun(env: Env, reg: map<string, Compiled>, t: Compiled, instance: Option<Json>, output: Option<Json>): Effects {
    match OutputName(output, instance)
    case Err(e) => Failed(reg, e)
    case Ok(name) =>
      var path := Text.PathJoin(env.outputDir, name);
      Effects([MakeDirs(Dirname(path)), WriteFile(path, env.render(t, instance.value, reg, env.helpers))], [], reg, None)
  }

  /** One output file per instance, in order, stopping at the first error. */
  function InstancesRun(env: Env, reg: map<string, Compiled>, t: Compiled, instances: seq<Json>, output: Option<Json>): Effects
    decreases |instances|
  {
    if instances == [] then Quiet(reg)
    else
      var first := WriteRun(env, reg, t, Some(instances[0]), output);
      if first.error.Some? then first
      else Then(first, InstancesRun(env, reg, t, instances[1..], output))
  }

  /** What is done with the data source, by output type. */
  function OutputRun(env: Env, reg: map<string, Compiled>, key: string, outputType: Option<Json>,
                     dataSource: Option<Json>, output: Option<Json>): Effects
    requires key in env.templates
  {
    if outputType == Some(JString("repeated")) then
      if dataSource.Some? && dataSource.value.JArray? then
        InstancesRun(env, reg, env.templates[key], dataSource.value.items, output)
      else Warn(reg, NotAnArray(key))
    else if outputType == Some(JString("single")) then
      WriteRun(env, reg, env.templates[key], dataSource, output)
    else Warn(reg, UnknownOutputType(outputType))
  }

  /** After the partials: `data[from]` is read, then the output is made. */
  function SourceRun(env: Env, reg: map<string, Compiled>, key: string, entry: Json, data: Json): Effects
    requires key in env.templates
  {
    match Member(Some(data), KeyText(Field(entry, "from")))
    case Err(e) => Failed(reg, e)
    case Ok(dataSource) => OutputRun(env, reg, key, Field(entry, "output-type"), dataSource, Field(entry, "output"))
  }

  /** The partials an entry lists, when it lists any. */
  function ListedPartials(entry: Json): Result<seq<string>> {
    var partials := Field(entry, "partials");
    if partials.Some? && Truthy(partials.value) then PartialNames(partials.value) else Ok([])
  }

  /** `processTemplate(entry, data, outputDir)` with partial registry `reg`. */
  function EntryRun(env: Env, reg: map<string, Compiled>, entry: Json, data: Json): Effects {
    if entry.JNull? then Failed(reg, "Cannot destructure 'templateEntry' as it is null.")
    else
      var key := KeyText(Field(entry, "template"));
      if key !in env.templates then Warn(reg, SkippedTemplate(key))
      else match ListedPartials(entry)
        case Err(e) => Failed(reg, e)
        case Ok(names) =>
          var p := PartialsRun(env, reg, names);
          Then(p, SourceRun(env, p.partials, key, entry, data))
  }

  /** The entries in descriptor order, one after the other, each seeing the
      partials the earlier ones registered, stopping at the first error. */
  function EntriesRun(env: Env, reg: map<string, Compiled>, entries: seq<Json>, data: Json): Effects
    decreases |entries|
  {
    if entries == [] then Quiet(reg)
    else
      var first := EntryRun(env, reg, entries[0], data);
      if first.error.Some? then first
      else Then(first, EntriesRun(env, first.partials, entries[1..], data))
  }

  /** Creating the output directory when it does not exist. */
  function OutputDirRun(outputDir: string, reg: map<string, Compiled>, outputExists: bool): Effects {
    Effects(if outputExists then [] else [MakeDirs(outputDir)], [], reg, None)
  }

  /** The entries `for ... of` visits in a string: its characters, each a
      one-character string. */
  function Characters(s: string): seq<Json> {
    seq(|s|, i requires 0 <= i < |s| => JString([s[i]]))
  }

  /** `generate(data, outputDir)`: the output directory is created when it
      does not exist, then every entry of `config.templates` is processed
      (an array's elements, or a string's characters). */
  function GenerateRun(env: Env, reg: map<string, Compiled>, config: Json, data: Json, outputExists: bool): Effects {
    var mk := OutputDirRun(env.outputDir, reg, outputExists);
    match Field(config, "templates")
    case Some(JArray(entries)) => Then(mk, EntriesRun(env, reg, entries, data))
    case Some(JString(chars)) => Then(mk, EntriesRun(env, reg, Characters(chars), data))
    case _ => Then(mk, Failed(reg, "this.config.templates is not iterable"))
  }

  // ---------------------------------------------------------------------
  // The engine
  // ---------------------------------------------------------------------

  /** `compileTemplates`: one compiled template per file, under its name. */
  method CompileTemplates(files: map<string, string>) returns (compiled: map<string, Compiled>)
    ensures compiled.Keys == files.Keys
    ensures forall name | name in files :: compiled[name] == Compiled(files[name])
  {
    compiled := map[];
    var remaining := files.Keys;
    while remaining != {}
      invariant remaining <= files.Keys
      invariant compiled.Keys == files.Keys - remaining
      invariant forall name | name in compiled :: compiled[name] == Compiled(files[name])
      decreases |remaining|
    {
      var name :| name in remaining;
      compiled := compiled[name := Compiled(files[name])];
      remaining := remaining - {name};
    }
  }

  class TemplateEngine {
    const config: Json
    const templates: map<string, Compiled>
    const fs: FileSystem
    const handlebars: Handlebars
    /** The warnings logged so far, oldest first. */
    ghost var warnings: seq<Warning>

    /** The environment generation runs in, writing below `outputDir`. */
    ghost function EnvFor(outputDir: string): Env
      reads this, handlebars
    {
      Env(templates, handlebars.helpers, outputDir, handlebars.render)
    }

    /** The engine of an initialized loader: its descriptor, its files
        compiled, and the transformer's helpers registered with Handlebars,
        in the order given. */
    constructor(loader: TemplateBundleFileLoader, transformerHelpers: seq<string>, handlebars: Handlebars)
      requires loader.config.Some? && loader.templateFiles.Some?
      modifies handlebars
      ensures config == loader.config.value && fs == loader.fs && this.handlebars == handlebars
      ensures templates.Keys == loader.templateFiles.value.Keys
      ensures forall name | name in templates :: templates[name] == Compiled(loader.templateFiles.value[name])
      ensures handlebars.helpers == old(handlebars.helpers) + transformerHelpers
      ensures handlebars.partials == old(handlebars.partials)
      ensures warnings == []
    {
      config := loader.config.value;
      fs := loader.fs;
      this.handlebars := handlebars;
      var compiled := CompileTemplates(loader.templateFiles.value);
      templates := compiled;
      warnings := [];
      new;
      var i := 0;
      while i < |transformerHelpers|
        invariant 0 <= i <= |transformerHelpers|
        invariant handlebars.helpers == old(handlebars.helpers) + transformerHelpers[..i]
        invariant handlebars.partials == old(handlebars.partials)
        invariant warnings == []
      {
        handlebars.RegisterHelper(transformerHelpers[i]);
        assert transformerHelpers[..i + 1] == transformerHelpers[..i] + [transformerHelpers[i]];
        i := i + 1;
      }
      assert transformerHelpers[..i] == transformerHelpers;
    }

    /** The output file of one instance. */
    method WriteOutput(t: Compiled, instance: Option<Json>, output: Option<Json>, outputDir: string) returns (error: Option<string>)
      requires fs.Valid()
      modifies fs
      ensures fs.Valid()
      ensures var run := WriteRun(EnvFor(outputDir), handlebars.partials, t, instance, output);
        fs.journal == old(fs.journal) + run.ops && error == run.error
    {
      var name := OutputName(output, instance);
      if name.Err? {
        return Some(name.error);
      }
      var path := Text.PathJoin(outputDir, name.value);
      var content := handlebars.render(t, instance.value, handlebars.partials, handlebars.helpers);
      ghost var j0 := fs.journal;
      fs.Perform(MakeDirs(Dirname(path)));
      fs.Perform(WriteFile(path, content));
      assert fs.journal == j0 + [MakeDirs(Dirname(path)), WriteFile(path, content)];
      error := None;
    }

    /** `for (const instance of dataSource)`: one file per instance. */
    method WriteInstances(t: Compiled, instances: seq<Json>, output: Option<Json>, outputDir: string) returns (error: Option<string>)
      requires fs.Valid()
      modifies fs
      ensures fs.Valid()
      ensures var run := InstancesRun(EnvFor(outputDir), handlebars.partials, t, instances, output);
        fs.journal == old(fs.journal) + run.ops && error == run.error
    {
      ghost var env, reg := EnvFor(outputDir), handlebars.partials;
      ghost var done := Quiet(reg);
      QuietThen(InstancesRun(env, reg, t, instances, output));
      assert instances[0..] == instances;
      var i := 0;
      while i < |instances|
        invariant 0 <= i <= |instances|
        invariant fs.Valid()
        invariant fs.journal == old(fs.journal) + done.ops
        invariant done.error == None && done.partials == reg
        invariant InstancesRun(env, reg, t, instances, output) == Then(done, InstancesRun(env, reg, t, instances[i..], output))
      {
        ghost var step := WriteRun(env, reg, t, Some(instances[i]), output);
        InstancesRunUnfold(env, reg, t, instances, i, output);
        ThenAssoc(done, step, InstancesRun(env, reg, t, instances[i + 1..], output));
        error := WriteOutput(t, Some(instances[i]), output, outputDir);
        ThenAppend(old(fs.journal), [], done, step);
        if error.Some? {
          return;
        }
        done := Then(done, step);
        i := i + 1;
      }
      assert instances[i..] == [];
      ThenQuiet(done);
      return None;
    }

    /** `for (const partial of partials)`: register or warn, one by one. */
    method RegisterPartials(names: seq<string>, ghost outputDir: string)
      modifies handlebars, this
      ensures var run := PartialsRun(old(EnvFor(outputDir)), old(handlebars.partials), names);
        && handlebars.partials == run.partials
        && warnings == old(warnings) + run.warnings
        && run.ops == [] && run.error == None
      ensures handlebars.helpers == old(handlebars.helpers)
    {
      ghost var env, reg := EnvFor(outputDir), handlebars.partials;
      ghost var done := Quiet(reg);
      var i := 0;
      while i < |names|
        invariant 0 <= i <= |names|
        invariant handlebars.helpers == env.helpers && handlebars.render == env.render
        invariant done.ops == [] && done.error == None
        invariant handlebars.partials == done.partials
        invariant warnings == old(warnings) + done.warnings
        invariant PartialsRun(env, reg, names) == Then(done, PartialsRun(env, done.partials, names[i..]))
      {
        ghost var step := PartialStep(env, done.partials, names[i]);
        PartialsRunUnfold(env, done.partials, names, i);
        ThenAssoc(done, step, PartialsRun(env, step.partials, names[i + 1..]));
        ThenAppend([], old(warnings), done, step);
        if names[i] in templates {
          handlebars.RegisterPartial(names[i], templates[names[i]]);
        } else {
          warnings := warnings + [MissingPartial(names[i])];
        }
        done := Then(done, step);
        i := i + 1;
      }
      assert names[i..] == [];
    }

    /** The output of the template `key`, by output type. */
    method MakeOutput(key: string, outputType: Option<Json>, dataSource: Option<Json>, output: Option<Json>, outputDir: string)
      returns (error: Option<string>)
      requires key in templates && fs.Valid()
      modifies fs, this
      ensures fs.Valid()
      ensures var run := OutputRun(EnvFor(outputDir), handlebars.partials, key, outputType, dataSource, output);
        && fs.journal == old(fs.journal) + run.ops
        && warnings == old(warnings) + run.warnings
        && run.partials == handlebars.partials
        && error == run.error
    {
      assert old(fs.journal) + [] == old(fs.journal);
      if outputType == Some(JString("repeated")) {
        if !(dataSource.Some? && dataSource.value.JArray?) {
          warnings := warnings + [NotAnArray(key)];
          return None;
        }
        error := WriteInstances(templates[key], dataSource.value.items, output, outputDir);
        InstancesKeepPartials(EnvFor(outputDir), handlebars.partials, templates[key], dataSource.value.items, output);
        assert old(warnings) + [] == old(warnings);
      } else if outputType == Some(JString("single")) {
        error := WriteOutput(templates[key], dataSource, output, outputDir);
        assert old(warnings) + [] == old(warnings);
      } else {
        warnings := warnings + [UnknownOutputType(outputType)];
        return None;
      }
    }

    /** Reading `data[from]`, then making the output of the template `key`. */
    method ProduceOutput(key: string, entry: Json, data: Json, outputDir: string) returns (error: Option<string>)
      requires key in templates && fs.Valid()
      modifies fs, this
      ensures fs.Valid()
      ensures var run := SourceRun(EnvFor(outputDir), handlebars.partials, key, entry, data);
        && fs.journal == old(fs.journal) + run.ops
        && warnings == old(warnings) + run.warnings
        && run.partials == handlebars.partials
        && error == run.error
    {
      var dataSource := Member(Some(data), KeyText(Field(entry, "from")));
      if dataSource.Err? {
        return Some(dataSource.error);
      }
      error := MakeOutput(key, Field(entry, "output-type"), dataSource.value, Field(entry, "output"), outputDir);
    }

    /** `processTemplate(entry, data, outputDir)`. */
    method ProcessTemplate(entry: Json, data: Json, outputDir: string) returns (error: Option<string>)
      requires fs.Valid()
      modifies fs, handlebars, this
      ensures fs.Valid()
      ensures var run := EntryRun(old(EnvFor(outputDir)), old(handlebars.partials), entry, data);
        && fs.journal == old(fs.journal) + run.ops
        && handlebars.partials == run.partials
        && warnings == old(warnings) + run.warnings
        && error == run.error
      ensures handlebars.helpers == old(handlebars.helpers)
    {
      if entry.JNull? {
        return Some("Cannot destructure 'templateEntry' as it is null.");
      }
      var key := KeyText(Field(entry, "template"));
      if key !in templates {
        warnings := warnings + [SkippedTemplate(key)];
        return None;
      }
      var names := ListedPartials(entry);
      if names.Err? {
        return Some(names.error);
      }
      error := ProcessListed(key, names.value, entry, data, outputDir);
    }

    /** The rest of `processTemplate` once the template is known and its
        partials are listed: the partials, then the output. */
    method ProcessListed(key: string, names: seq<string>, entry: Json, data: Json, outputDir: string) returns (error: Option<string>)
      requires key in templates && fs.Valid()
      modifies fs, handlebars, this
      ensures fs.Valid()
      ensures var env := Env(templates, old(handlebars.helpers), outputDir, handlebars.render);
        var p := PartialsRun(env, old(handlebars.partials), names);
        var run := Then(p, SourceRun(env, p.partials, key, entry, data));
        && fs.journal == old(fs.journal) + run.ops
        && handlebars.partials == run.partials
        && warnings == old(warnings) + run.warnings
        && error == run.error
      ensures handlebars.helpers == old(handlebars.helpers)
    {
      ghost var env, reg, w0 := EnvFor(outputDir), handlebars.partials, warnings;
      RegisterPartials(names, outputDir);
      ghost var p := PartialsRun(env, reg, names);
      assert EnvFor(outputDir) == env && handlebars.partials == p.partials;
      error := ProduceOutput(key, entry, data, outputDir);
      ThenAfterQuiet(old(fs.journal), w0, p, SourceRun(env, p.partials, key, entry, data));
    }

    /** `for (const templateEntry of this.config.templates)`. */
    method ProcessEntries(entries: seq<Json>, data: Json, outputDir: string) returns (error: Option<string>)
      requires fs.Valid()
      modifies fs, handlebars, this
      ensures fs.Valid()
      ensures var run := EntriesRun(old(EnvFor(outputDir)), old(handlebars.partials), entries, data);
        && fs.journal == old(fs.journal) + run.ops
        && handlebars.partials == run.partials
        && warnings == old(warnings) + run.warnings
        && error == run.error
      ensures handlebars.helpers == old(handlebars.helpers)
    {
      ghost var env, reg0 := EnvFor(outputDir), handlebars.partials;
      ghost var done := Quiet(reg0);
      QuietThen(EntriesRun(env, reg0, entries, data));
      assert entries[0..] == entries;
      var i := 0;
      while i < |entries|
        invariant 0 <= i <= |entries|
        invariant fs.Valid()
        invariant handlebars.helpers == env.helpers
        invariant fs.journal == old(fs.journal) + done.ops
        invariant handlebars.partials == done.partials
        invariant warnings == old(warnings) + done.warnings
        invariant done.error == None
        invariant EntriesRun(env, reg0, entries, data) == Then(done, EntriesRun(env, done.partials, entries[i..], data))
      {
        var stop;
        error, stop, done := ProcessNext(entries, i, data, outputDir, env, reg0, old(fs.journal), old(warnings), done);
        if stop {
          return;
        }
        i := i + 1;
      }
      assert entries[i..] == [];
      ThenQuiet(done);
      return None;
    }

    /** One round of `ProcessEntries`: entry `i` after the entries before it
        made `done`. */
    method ProcessNext(entries: seq<Json>, i: nat, data: Json, outputDir: string, ghost env: Env, ghost reg0: map<string, Compiled>,
                       ghost j0: seq<FsOp>, ghost w0: seq<Warning>, ghost done: Effects)
      returns (error: Option<string>, stop: bool, ghost done': Effects)
      requires i < |entries| && fs.Valid() && EnvFor(outputDir) == env
      requires fs.journal == j0 + done.ops && handlebars.partials == done.partials && warnings == w0 + done.warnings
      requires done.error == None
      requires EntriesRun(env, reg0, entries, data) == Then(done, EntriesRun(env, done.partials, entries[i..], data))
      modifies fs, handlebars, this
      ensures fs.Valid() && EnvFor(outputDir) == env
      ensures fs.journal == j0 + done'.ops && handlebars.partials == done'.partials && warnings == w0 + done'.warnings
      ensures stop <==> error.Some?
      ensures error == done'.error
      ensures stop ==> done' == EntriesRun(env, reg0, entries, data)
      ensures !stop ==> done'.error == None && EntriesRun(env, reg0, entries, data) == Then(done', EntriesRun(env, done'.partials, entries[i + 1..], data))
    {
      ghost var step := EntryRun(env, done.partials, entries[i], data);
      EntriesRunUnfold(env, done.partials, entries, i, data);
      ThenAssoc(done, step, EntriesRun(env, step.partials, entries[i + 1..], data));
      error := ProcessTemplate(entries[i], data, outputDir);
      ThenAppend(j0, w0, done, step);
      done' := Then(done, step);
      stop := error.Some?;
    }

    /** Creating the output directory unless it exists. */
    method CreateOutputDir(outputDir: string)
      requires fs.Valid()
      modifies fs
      ensures fs.Valid()
      ensures fs.journal == old(fs.journal) + OutputDirRun(outputDir, map[], old(fs.PathExists(outputDir))).ops
    {
      if !fs.PathExists(outputDir) {
        fs.Perform(MakeDirs(outputDir));
      } else {
        assert fs.journal == old(fs.journal) + [];
      }
    }

    /** `generate(data, outputDir)`. */
    method Generate(data: Json, outputDir: string) returns (outcome: Outcome)
      requires fs.Valid()
      modifies fs, handlebars, this
      ensures fs.Valid()
      ensures var run := GenerateRun(old(EnvFor(outputDir)), old(handlebars.partials), config, data, old(fs.PathExists(outputDir)));
        && fs.journal == old(fs.journal) + run.ops
        && handlebars.partials == run.partials
        && warnings == old(warnings) + run.warnings
        && outcome == (if run.error.Some? then Fail(run.error.value) else Pass)
    {
      ghost var env, reg0, ex := EnvFor(outputDir), handlebars.partials, fs.PathExists(outputDir);
      ghost var mk := OutputDirRun(outputDir, reg0, ex);
      CreateOutputDir(outputDir);
      var listed := Field(config, "templates");
      if !(listed.Some? && (listed.value.JArray? || listed.value.JString?)) {
        ghost var run := Then(mk, Failed(reg0, "this.config.templates is not iterable"));
        assert GenerateRun(env, reg0, config, data, ex) == run;
        assert run.ops == mk.ops && run.warnings == [] && run.partials == reg0;
        assert old(warnings) + run.warnings == old(warnings);
        return Fail("this.config.templates is not iterable");
      }
      var entries := if listed.value.JArray? then listed.value.items else Characters(listed.value.s);
      ghost var entriesRun := EntriesRun(env, reg0, entries, data);
      assert GenerateRun(env, reg0, config, data, ex) == Then(mk, entriesRun);
      var error := ProcessEntries(entries, data, outputDir);
      ThenAfterSilent(old(fs.journal), old(warnings), mk, entriesRun);
      outcome := if error.Some? then Fail(error.value) else Pass;
    }
  }

  /** What follows a step that logged nothing. */
  lemma ThenAfterSilent(j: seq<FsOp>, w: seq<Warning>, a: Effects, b: Effects)
    requires a.warnings == []
    ensures j + Then(a, b).ops == (j + a.ops) + b.ops
    ensures w + Then(a, b).warnings == w + b.warnings
  {
  }

  lemma QuietThen(b: Effects)
    ensures Then(Quiet(b.partials), b) == b
  {
  }

  lemma ThenQuiet(a: Effects)
    requires a.error == None
    ensures Then(a, Quiet(a.partials)) == a
  {
  }

  /** The journal and the warnings after two steps, one after the other. */
  lemma ThenAppend(j: seq<FsOp>, w: seq<Warning>, a: Effects, b: Effects)
    ensures j + Then(a, b).ops == (j + a.ops) + b.ops
    ensures w + Then(a, b).warnings == (w + a.warnings) + b.warnings
  {
  }

  /** What follows a step that touched no file. */
  lemma ThenAfterQuiet(j: seq<FsOp>, w: seq<Warning>, a: Effects, b: Effects)
    requires a.ops == []
    ensures j + Then(a, b).ops == j + b.ops
    ensures w + Then(a, b).warnings == (w + a.warnings) + b.warnings
  {
  }

  lemma InstancesRunUnfold(env: Env, reg: map<string, Compiled>, t: Compiled, instances: seq<Json>, i: nat, output: Option<Json>)
    requires i < |instances|
    ensures var first := WriteRun(env, reg, t, Some(instances[i]), output);
      InstancesRun(env, reg, t, instances[i..], output)
      == if first.error.Some? then first else Then(first, InstancesRun(env, reg, t, instances[i + 1..], output))
  {
    assert instances[i..][1..] == instances[i + 1..];
  }

  lemma PartialsRunUnfold(env: Env, reg: map<string, Compiled>, names: seq<string>, i: nat)
    requires i < |names|
    ensures PartialsRun(env, reg, names[i..])
      == Then(PartialStep(env, reg, names[i]), PartialsRun(env, PartialStep(env, reg, names[i]).partials, names[i + 1..]))
  {
    assert names[i..][1..] == names[i + 1..];
  }

  lemma EntriesRunUnfold(env: Env, reg: map<string, Compiled>, entries: seq<Json>, i: nat, data: Json)
    requires i < |entries|
    ensures var first := EntryRun(env, reg, entries[i], data);
      EntriesRun(env, reg, entries[i..], data)
      == if first.error.Some? then first else Then(first, EntriesRun(env, first.partials, entries[i + 1..], data))
  {
    assert entries[i..][1..] == entries[i + 1..];
  }

  /** Writing files registers no partials. */
  lemma {:induction false} InstancesKeepPartials(env: Env, reg: map<string, Compiled>, t: Compiled, instances: seq<Json>, output: Option<Json>)
    ensures InstancesRun(env, reg, t, instances, output).partials == reg
    ensures InstancesRun(env, reg, t, instances, output).warnings == []
    decreases |instances|
  {
    if instances != [] {
      InstancesKeepPartials(env, reg, t, instances[1..], output);
    }
  }
}
