/** `TemplateProcessor`: the pipeline that turns a CALM model file and a
    template bundle into generated files. It cleans the output directory,
    reads the model, checks the declared transformer, loads it, dereferences
    the model, transforms it and hands the result to the template engine.
    The transformer module system, the dereferencer and JSON parsing are
    oracles; every step the pipeline takes is recorded, in order. */
module TemplateProcessors {
  import opened Wrappers
  import opened Json
  import Text
  import opened FileSystems
  import opened TemplateBundles
  import opened TemplateEngines
  import JsonPointer

  /** A transformer instance: `getTransformedModel` (which may throw), and
      the names of the helpers `registerTemplateHelpers` returns, in order. */
  datatype Transformer = Transformer(transform: Json -> Result<Json>, helpers: seq<string>)

  /** What importing a transformer module and instantiating its default
      export gives: a failure of the import or the constructor, a default
      export that is not a function, or the instance. */
  datatype Imported = ImportFailed(message: string) | NotAConstructor | Constructed(transformer: Transformer)

  /** Where `loadTransformer` takes the transformer from. */
  datatype TransformerSource = DefaultSource | TypeScriptFile(path: string) | JavaScriptFile(path: string)

  /** The steps of `processTemplate`, with what each step is given. */
  datatype Step =
    | InitializeStep(bundle: string)
    | CleanStep(outputDir: string)
    | ReadStep(inputPath: string)
    | ValidateStep
    | LoadStep(name: Option<Json>)
    | DereferenceStep(text: string)
    | TransformStep(document: Json)
    | GenerateStep(model: Json, outputDir: string)

  /** The position each kind of step has in the pipeline. */
  function Rank(step: Step): nat {
    match step
    case InitializeStep(_) => 0
    case CleanStep(_) => 1
    case ReadStep(_) => 2
    case ValidateStep => 3
    case LoadStep(_) => 4
    case DereferenceStep(_) => 5
    case TransformStep(_) => 6
    case GenerateStep(_, _) => 7
  }

  /** The errors the processor throws; `ErrorMessage` is the text of each. */
  datatype Failure =
    | ModelNotFound(path: string)                           // `readInputFile`, no such path
    | ModelUnreadable(path: string)                         // `readFileSync` of a directory
    | DescriptorUnreadable(undefined: bool)                 // `config.transformer` of `undefined` or `null`
    | TransformerNotFound(name: Option<Json>, bundle: string)  // `validateConfig`
    | TransformerFileNotFound(tsPath: string, jsPath: string)  // `loadTransformer`, neither file
    | TransformerImportFailed(message: string)              // the import or the constructor threw
    | TransformerNotAClass                                  // the default export is not a function
    | DereferenceFailed(message: string)                    // `dereferenceCalmDoc` threw
    | TransformFailed(message: string)                      // `getTransformedModel` threw
    | BundleUnloadable(message: string)                     // `initialize` of the bundle loader threw
    | GenerationFailed(cause: Failure)                      // the `catch` of `processTemplate`

  /** The prefix every failure of the pipeline is rethrown with. */
  const GenerationFailure: string := "❌ Error generating template: "

  /** The prefix every failure of importing a transformer is rethrown with. */
  const LoadFailure: string := "❌ Error loading transformer: "

  /** The message of a transformer module whose default export is not a class. */
  const NotAConstructorMessage: string := "❌ TransformerClass is not a constructor. Did you forget to export default?"

  /** The message of the error thrown for `f`. */
  function ErrorMessage(f: Failure): string {
    match f
    case ModelNotFound(path) => "CALM model file not found: " + path
    case ModelUnreadable(_) => DirectoryReadError
    case DescriptorUnreadable(undefined) => Member(if undefined then None else Some(JNull), "transformer").error
    case TransformerNotFound(name, bundle) =>
      "❌ Transformer \"" + KeyText(name) + "\" specified in index.json but not found as .ts or .js in " + bundle
    case TransformerFileNotFound(ts, js) => "❌ Transformer file not found: " + ts + " or " + js
    case TransformerImportFailed(m) => LoadFailure + m
    case TransformerNotAClass => LoadFailure + NotAConstructorMessage
    case DereferenceFailed(m) => m
    case TransformFailed(m) => m
    case BundleUnloadable(m) => m
    case GenerationFailed(cause) => GenerationFailure + ErrorMessage(cause)
  }

  /** A step's value, or the failure it threw. */
  datatype Attempt<+T> = Done(value: T) | Failed(failure: Failure)

  /** The completion of `processTemplate`: normal, or the failure it threw. */
  datatype Completion = Completed | Threw(failure: Failure)

  // ---------------------------------------------------------------------
  // The steps
  // ---------------------------------------------------------------------

  /** The changes `cleanOutputDirectory` makes: the old tree is removed when
      it exists, then the directory is created. */
  function CleanOps(s: FsState, outputDir: string): seq<FsOp> {
    (if Exists(s, outputDir) then [RemoveAll(outputDir)] else []) + [MakeDirs(outputDir)]
  }

  /** `readInputFile`: a missing file fails with a fixed message; an existing
      one is read (reading a directory fails). */
  function ReadInputFrom(s: FsState, inputPath: string): (r: Attempt<string>)
    ensures r.Done? <==> inputPath in s.files
    ensures r.Done? ==> r.value == s.files[inputPath]
    ensures r.Failed? ==> r.failure == (if Exists(s, inputPath) then ModelUnreadable(inputPath) else ModelNotFound(inputPath))
  {
    if !Exists(s, inputPath) then Failed(ModelNotFound(inputPath))
    else if inputPath !in s.files then Failed(ModelUnreadable(inputPath))
    else Done(s.files[inputPath])
  }

  /** A transformer is declared when the descriptor's `transformer` is truthy. */
  predicate Declared(name: Option<Json>) {
    name.Some? && Truthy(name.value)
  }

  function TypeScriptPath(bundle: string, name: Option<Json>): string {
    Text.PathJoin(bundle, KeyText(name) + ".ts")
  }

  function JavaScriptPath(bundle: string, name: Option<Json>): string {
    Text.PathJoin(bundle, KeyText(name) + ".js")
  }

  /** `validateConfig`, giving the descriptor's `transformer` when it passes:
      reading `transformer` of a missing or `null` descriptor throws; a
      declared transformer needs its `.ts` or `.js` file in the bundle. */
  function ValidateConfigIn(config: Option<Json>, bundle: string, s: FsState): Attempt<Option<Json>> {
    if config.None? || config.value.JNull? then Failed(DescriptorUnreadable(config.None?))
    else
      var name := JsonPointer.Step(config.value, "transformer");
      if Declared(name) && !Exists(s, TypeScriptPath(bundle, name)) && !Exists(s, JavaScriptPath(bundle, name)) then
        Failed(TransformerNotFound(name, bundle))
      else Done(name)
  }

  /** The file selection of `loadTransformer`. */
  function SelectTransformer(name: Option<Json>, bundle: string, s: FsState): Attempt<TransformerSource> {
    if !Declared(name) then Done(DefaultSource)
    else if Exists(s, TypeScriptPath(bundle, name)) then Done(TypeScriptFile(TypeScriptPath(bundle, name)))
    else if Exists(s, JavaScriptPath(bundle, name)) then Done(JavaScriptFile(JavaScriptPath(bundle, name)))
    else Failed(TransformerFileNotFound(TypeScriptPath(bundle, name), JavaScriptPath(bundle, name)))
  }

  /** `loadTransformer`: the default transformer, or the instance of the
      selected module's default export; failures of the import are wrapped. */
  function LoadTransformerFrom(name: Option<Json>, bundle: string, s: FsState,
                               importModule: string -> Imported, defaultTransformer: Transformer): Attempt<Transformer> {
    match SelectTransformer(name, bundle, s)
    case Failed(f) => Failed(f)
    case Done(DefaultSource) => Done(defaultTransformer)
    case Done(source) =>
      match importModule(source.path)
      case ImportFailed(m) => Failed(TransformerImportFailed(m))
      case NotAConstructor => Failed(TransformerNotAClass)
      case Constructed(t) => Done(t)
  }

  // ---------------------------------------------------------------------
  // The pipeline
  // ---------------------------------------------------------------------

  /** The steps taken, and either the failure that ended the pipeline or the
      transformer and the model generation was started with. */
  datatype Run = Run(steps: seq<Step>, outcome: Attempt<(Transformer, Json)>)

  /** `steps`, then `run`. */
  function After(steps: seq<Step>, run: Run): Run {
    Run(steps + run.steps, run.outcome)
  }

  /** What a processor is built with. */
  datatype Setup = Setup(
    inputPath: string, bundle: string, outputDir: string, mapping: map<string, string>,
    importModule: string -> Imported, defaultTransformer: Transformer,
    dereference: (map<string, string>, string) -> Result<Json>)

  /** Dereferencing the model text, transforming the document and starting
      generation with the result. */
  function DereferenceRun(p: Setup, t: Transformer, text: string): Run {
    match p.dereference(p.mapping, text)
    case Err(e) => Run([], Failed(DereferenceFailed(e)))
    case Ok(document) =>
      match t.transform(document)
      case Err(e) => Run([TransformStep(document)], Failed(TransformFailed(e)))
      case Ok(model) => Run([TransformStep(document), GenerateStep(model, p.outputDir)], Done((t, model)))
  }

  /** Loading the transformer `name`, then the rest. */
  function LoadRun(p: Setup, name: Option<Json>, s: FsState, text: string): Run {
    match LoadTransformerFrom(name, p.bundle, s, p.importModule, p.defaultTransformer)
    case Failed(f) => Run([], Failed(f))
    case Done(t) => After([DereferenceStep(text)], DereferenceRun(p, t, text))
  }

  /** Validating the descriptor, then loading its transformer and the rest. */
  function ValidateRun(p: Setup, config: Option<Json>, s: FsState, text: string): Run {
    match ValidateConfigIn(config, p.bundle, s)
    case Failed(f) => Run([], Failed(f))
    case Done(name) => After([LoadStep(name)], LoadRun(p, name, s, text))
  }

  /** Reading the model file, then validating the descriptor and the rest. */
  function ReadRun(p: Setup, config: Option<Json>, s: FsState): Run {
    match ReadInputFrom(s, p.inputPath)
    case Failed(f) => Run([ReadStep(p.inputPath)], Failed(f))
    case Done(text) => After([ReadStep(p.inputPath), ValidateStep], ValidateRun(p, config, s, text))
  }

  /** The `try` block of `processTemplate`, for descriptor `config`, on the
      file-system state `s` the cleaning left. */
  function PipelineRun(p: Setup, config: Option<Json>, s: FsState): Run {
    After([CleanStep(p.outputDir)], ReadRun(p, config, s))
  }

  /** What `processTemplate` reports for a run of its `try` block. */
  function Reported(run: Run): Completion {
    if run.outcome.Failed? then Threw(GenerationFailed(run.outcome.failure)) else Completed
  }

  /** The environment the engine of a bundle's files generates in. */
  function EngineEnv(files: map<string, string>, helpers: seq<string>, outputDir: string, render: Renderer): Env {
    Env(map name | name in files :: Compiled(files[name]), helpers, outputDir, render)
  }

  /** The file changes of the generation a pipeline started with transformer
      and model `started`, if it started one: the engine over `files`, with
      the transformer's helpers registered after `helpers`, into the output
      directory the cleaning created. */
  function GenerationOps(started: Attempt<(Transformer, Json)>, files: Option<map<string, string>>, helpers: seq<string>,
                         outputDir: string, render: Renderer, partials: map<string, Compiled>, config: Option<Json>): seq<FsOp> {
    if started.Done? && config.Some? && files.Some? then
      var env := EngineEnv(files.value, helpers + started.value.0.helpers, outputDir, render);
      GenerateRun(env, partials, config.value, started.value.1, true).ops
    else []
  }

  /** The template files of a bundle directory, by name. */
  function BundleFiles(s: FsState, bundle: string): map<string, string> {
    map n | n in TemplateNames(Children(s, bundle)) && Text.PathJoin(bundle, n) in s.files :: s.files[Text.PathJoin(bundle, n)]
  }

  /** Every template file of the bundle directory can be read. */
  predicate BundleReadable(s: FsState, bundle: string) {
    && bundle in s.dirs
    && forall n | n in TemplateNames(Children(s, bundle)) :: Text.PathJoin(bundle, n) in s.files
  }

  class TemplateProcessor {
    const inputPath: string
    const templateBundlePath: string
    const outputPath: string
    const urlToLocalPathMapping: map<string, string>
    const fs: FileSystem
    /** `JSON.parse`, as the bundle loader uses it. */
    const parse: string -> Result<Json>
    /** Dynamic `import` of a transformer module and `new` of its default export. */
    const importModule: string -> Imported
    /** `new TemplateDefaultTransformer()`. */
    const defaultTransformer: Transformer
    /** `TemplateCalmFileDereferencer.dereferenceCalmDoc` of a dereferencer
        built with the given URL mapping. */
    const dereference: (map<string, string>, string) -> Result<Json>
    const handlebars: Handlebars
    /** The pipeline steps taken so far, oldest first. */
    ghost var steps: seq<Step>

    constructor(inputPath: string, templateBundlePath: string, outputPath: string, urlToLocalPathMapping: map<string, string>,
                fs: FileSystem, parse: string -> Result<Json>, importModule: string -> Imported,
                defaultTransformer: Transformer, dereference: (map<string, string>, string) -> Result<Json>, handlebars: Handlebars)
      ensures this.inputPath == inputPath && this.templateBundlePath == templateBundlePath && this.outputPath == outputPath
      ensures this.urlToLocalPathMapping == urlToLocalPathMapping && this.fs == fs && this.parse == parse
      ensures this.importModule == importModule && this.defaultTransformer == defaultTransformer
      ensures this.dereference == dereference && this.handlebars == handlebars
      ensures steps == []
    {
      this.inputPath := inputPath;
      this.templateBundlePath := templateBundlePath;
      this.outputPath := outputPath;
      this.urlToLocalPathMapping := urlToLocalPathMapping;
      this.fs := fs;
      this.parse := parse;
      this.importModule := importModule;
      this.defaultTransformer := defaultTransformer;
      this.dereference := dereference;
      this.handlebars := handlebars;
      steps := [];
    }

    function Settings(): Setup {
      Setup(inputPath, templateBundlePath, outputPath, urlToLocalPathMapping, importModule, defaultTransformer, dereference)
    }

    /** `cleanOutputDirectory`. */
    method CleanOutputDirectory()
      requires fs.Valid()
      modifies fs
      ensures fs.Valid()
      ensures fs.journal == old(fs.journal) + CleanOps(old(fs.state), outputPath)
      ensures fs.state == ApplyAll(old(fs.state), CleanOps(old(fs.state), outputPath))
    {
      ghost var s0 := fs.state;
      ghost var j0 := fs.journal;
      if fs.PathExists(outputPath) {
        fs.Perform(RemoveAll(outputPath));
      }
      fs.Perform(MakeDirs(outputPath));
      CleanOpsApplied(s0, outputPath);
      assert fs.journal == j0 + CleanOps(s0, outputPath);
    }

    /** `readInputFile`; the failure of reading a directory carries the
        message `readFileSync` throws. */
    method ReadInputFile() returns (r: Attempt<string>)
      ensures r == ReadInputFrom(fs.state, inputPath)
      ensures r.Failed? && r.failure.ModelUnreadable? ==> fs.ReadFile(inputPath) == Err(ErrorMessage(r.failure))
    {
      if !fs.PathExists(inputPath) {
        return Failed(ModelNotFound(inputPath));
      }
      var content := fs.ReadFile(inputPath);
      if content.Err? {
        return Failed(ModelUnreadable(inputPath));
      }
      return Done(content.value);
    }

    /** The `try` block of `processTemplate` with descriptor `config`; the
        engine is built over `engineLoader`. */
    method Pipeline(config: Option<Json>, engineLoader: TemplateBundleFileLoader) returns (outcome: Completion)
      requires fs.Valid() && engineLoader.fs == fs
      requires config.Some? ==> engineLoader.config == config && engineLoader.templateFiles.Some?
      modifies fs, handlebars, this
      ensures fs.Valid()
      ensures var run := PipelineRun(Settings(), config, ApplyAll(old(fs.state), CleanOps(old(fs.state), outputPath)));
        && steps == old(steps) + run.steps
        && outcome == Reported(run)
        && fs.journal == old(fs.journal) + CleanOps(old(fs.state), outputPath)
             + GenerationOps(run.outcome, engineLoader.templateFiles, old(handlebars.helpers), outputPath,
                             handlebars.render, old(handlebars.partials), config)
    {
      ghost var s0 := fs.state;
      steps := steps + [CleanStep(outputPath)];
      CleanOutputDirectory();
      CleanedExists(s0, outputPath);
      var prepared := Prepare(config);
      StepsAssoc(old(steps), [CleanStep(outputPath)], ReadRun(Settings(), config, fs.state).steps);
      if prepared.Failed? {
        assert fs.journal == fs.journal + GenerationOps(prepared, engineLoader.templateFiles, handlebars.helpers,
                                                        outputPath, handlebars.render, handlebars.partials, config);
        return Threw(GenerationFailed(prepared.failure));
      }
      PreparedHasConfig(Settings(), config, fs.state);
      outcome := Generation(config.value, engineLoader, prepared.value.0, prepared.value.1);
    }

    /** The steps of the `try` block up to the start of generation: reading
        the model file, validating the descriptor, loading the transformer,
        dereferencing the model and transforming it. None changes a file. */
    method Prepare(config: Option<Json>) returns (r: Attempt<(Transformer, Json)>)
      modifies this
      ensures steps == old(steps) + ReadRun(Settings(), config, fs.state).steps
      ensures r == ReadRun(Settings(), config, fs.state).outcome
    {
      ghost var before := steps;
      steps := before + [ReadStep(inputPath)];
      var text := ReadInputFile();
      if text.Failed? {
        return Failed(text.failure);
      }
      steps := before + [ReadStep(inputPath), ValidateStep];
      var name := ValidateConfigIn(config, templateBundlePath, fs.state);
      if name.Failed? {
        return Failed(name.failure);
      }
      steps := before + ([ReadStep(inputPath), ValidateStep] + [LoadStep(name.value)]);
      var transformer := LoadTransformerFrom(name.value, templateBundlePath, fs.state, importModule, defaultTransformer);
      if transformer.Failed? {
        return Failed(transformer.failure);
      }
      steps := before + ([ReadStep(inputPath), ValidateStep] + ([LoadStep(name.value)] + [DereferenceStep(text.value)]));
      var document := dereference(urlToLocalPathMapping, text.value);
      if document.Err? {
        return Failed(DereferenceFailed(document.error));
      }
      var model := transformer.value.transform(document.value);
      if model.Err? {
        steps := before + ([ReadStep(inputPath), ValidateStep] + ([LoadStep(name.value)] + ([DereferenceStep(text.value)]
                   + [TransformStep(document.value)])));
        return Failed(TransformFailed(model.error));
      }
      steps := before + ([ReadStep(inputPath), ValidateStep] + ([LoadStep(name.value)] + ([DereferenceStep(text.value)]
                 + [TransformStep(document.value), GenerateStep(model.value, outputPath)])));
      return Done((transformer.value, model.value));
    }

    /** `new TemplateEngine(templateLoader, transformer)` and
        `engine.generate(transformedModel, outputPath)`. Generation is
        started and not waited for, so its outcome is not the processor's. */
    method Generation(config: Json, engineLoader: TemplateBundleFileLoader, transformer: Transformer, model: Json) returns (outcome: Completion)
      requires fs.Valid() && engineLoader.fs == fs && engineLoader.config == Some(config) && engineLoader.templateFiles.Some?
      requires Exists(fs.state, outputPath)
      modifies fs, handlebars
      ensures fs.Valid() && outcome == Completed
      ensures fs.journal == old(fs.journal) + GenerationOps(Done((transformer, model)), engineLoader.templateFiles, old(handlebars.helpers),
                                                             outputPath, handlebars.render, old(handlebars.partials), Some(config))
    {
      var engine := new TemplateEngine(engineLoader, transformer.helpers, handlebars);
      assert engine.EnvFor(outputPath) == EngineEnv(engineLoader.templateFiles.value, old(handlebars.helpers) + transformer.helpers, outputPath, handlebars.render);
      var _ := engine.Generate(model, outputPath);
      return Completed;
    }

    /** `processTemplate` as written: the descriptor is read from a loader
        that was never initialized, so it is always missing, and the
        pipeline never reaches generation. */
    method ProcessTemplateAsWritten() returns (outcome: Completion)
      requires fs.Valid()
      modifies fs, handlebars, this
      ensures fs.Valid()
      ensures var run := PipelineRun(Settings(), None, ApplyAll(old(fs.state), CleanOps(old(fs.state), outputPath)));
        && steps == old(steps) + run.steps
        && outcome == Reported(run)
        && fs.journal == old(fs.journal) + CleanOps(old(fs.state), outputPath)
    {
      var configLoader := new TemplateBundleFileLoader(templateBundlePath, fs, parse);
      var config := configLoader.GetConfig();
      var engineLoader := new TemplateBundleFileLoader(templateBundlePath, fs, parse);
      outcome := Pipeline(config, engineLoader);
    }

    /** `processTemplate` with its loader initialized at the start of the
        `try` block, before anything is cleaned, and that loader given to the
        engine. A bundle that cannot be loaded is rethrown with the one
        prefix, like every other failure. */
    method ProcessTemplate() returns (outcome: Completion)
      requires fs.Valid()
      modifies fs, handlebars, this
      ensures fs.Valid()
      ensures outcome.Threw? ==>
        outcome.failure.GenerationFailed? && Text.StartsWith(ErrorMessage(outcome.failure), GenerationFailure)
      ensures var loaded := LoadConfigFrom(old(fs.state), templateBundlePath, parse);
        !(loaded.Ok? && BundleReadable(old(fs.state), templateBundlePath)) ==>
          && outcome.Threw? && outcome.failure.GenerationFailed? && outcome.failure.cause.BundleUnloadable?
          && fs.journal == old(fs.journal) && steps == old(steps) + [InitializeStep(templateBundlePath)]
          && (loaded.Err? ==> outcome == Threw(GenerationFailed(BundleUnloadable(loaded.error))))
      ensures var loaded := LoadConfigFrom(old(fs.state), templateBundlePath, parse);
        loaded.Ok? && BundleReadable(old(fs.state), templateBundlePath) ==>
          var run := PipelineRun(Settings(), Some(loaded.value), ApplyAll(old(fs.state), CleanOps(old(fs.state), outputPath)));
          && steps == old(steps) + [InitializeStep(templateBundlePath)] + run.steps
          && outcome == Reported(run)
          && fs.journal == old(fs.journal) + CleanOps(old(fs.state), outputPath)
               + GenerationOps(run.outcome, Some(BundleFiles(old(fs.state), templateBundlePath)), old(handlebars.helpers),
                               outputPath, handlebars.render, old(handlebars.partials), Some(loaded.value))
    {
      steps := steps + [InitializeStep(templateBundlePath)];
      var loader := new TemplateBundleFileLoader(templateBundlePath, fs, parse);
      var initialized := loader.Initialize();
      if initialized.Fail? {
        Text.PrefixOfConcat(GenerationFailure, initialized.error);
        return Threw(GenerationFailed(BundleUnloadable(initialized.error)));
      }
      assert loader.templateFiles.value == BundleFiles(fs.state, templateBundlePath);
      ghost var cleaned := ApplyAll(fs.state, CleanOps(fs.state, outputPath));
      outcome := Pipeline(loader.GetConfig(), loader);
      PipelineFailures(Settings(), loader.GetConfig(), cleaned);
    }
  }

  lemma StepsAssoc(a: seq<Step>, b: seq<Step>, c: seq<Step>)
    ensures a + b + c == a + (b + c)
  {
  }

  /** Only a descriptor that is present can pass validation. */
  lemma PreparedHasConfig(p: Setup, config: Option<Json>, s: FsState)
    ensures ReadRun(p, config, s).outcome.Done? ==> config.Some?
  {
  }

  /** The cleaning leaves the output directory in place. */
  lemma CleanedExists(s: FsState, outputDir: string)
    ensures Exists(ApplyAll(s, CleanOps(s, outputDir)), outputDir)
  {
    CleanEmptiesOutput(s, outputDir);
  }

  lemma CleanOpsApplied(s: FsState, outputDir: string)
    ensures ApplyAll(s, CleanOps(s, outputDir)) ==
      if Exists(s, outputDir) then Apply(Apply(s, RemoveAll(outputDir)), MakeDirs(outputDir)) else Apply(s, MakeDirs(outputDir))
  {
    assert ApplyAll(s, []) == s;
    ApplyAllSnoc(s, [], RemoveAll(outputDir));
    ApplyAllSnoc(s, [], MakeDirs(outputDir));
    ApplyAllSnoc(s, [RemoveAll(outputDir)], MakeDirs(outputDir));
    assert [] + [RemoveAll(outputDir)] == [RemoveAll(outputDir)];
    assert [] + [MakeDirs(outputDir)] == [MakeDirs(outputDir)];
    assert [RemoveAll(outputDir)] + [MakeDirs(outputDir)] == [RemoveAll(outputDir), MakeDirs(outputDir)];
  }

  // ---------------------------------------------------------------------
  // Properties
  // ---------------------------------------------------------------------

  /** After cleaning, the output directory exists; when it existed before,
      nothing that was below it survives. */
  lemma CleanEmptiesOutput(s: FsState, outputDir: string)
    ensures var t := ApplyAll(s, CleanOps(s, outputDir));
      && outputDir in t.dirs
      && (Exists(s, outputDir) ==>
            && (forall f | f in t.files :: !Within(f, outputDir))
            && (forall d | d in t.dirs && Within(d, outputDir) :: d == outputDir))
      && (!Exists(s, outputDir) ==> t.files == s.files)
  {
    CleanOpsApplied(s, outputDir);
    if Exists(s, outputDir) {
      CleanLeavesEmptyDirectory(s, outputDir);
    }
  }

  /** `validateConfig` reads `config.transformer`: it fails with the error of
      that read exactly when the read throws; otherwise it fails exactly when
      a transformer is declared that has neither a `.ts` nor a `.js` file in
      the bundle, and passes on the value read. */
  lemma ValidateConfigCases(config: Option<Json>, bundle: string, s: FsState)
    ensures var v := ValidateConfigIn(config, bundle, s);
      && (v.Failed? && v.failure.DescriptorUnreadable? <==> Member(config, "transformer").Err?)
      && (v.Failed? && v.failure.DescriptorUnreadable? ==> ErrorMessage(v.failure) == Member(config, "transformer").error)
      && (Member(config, "transformer").Ok? ==>
            var name := Member(config, "transformer").value;
            && (v.Failed? <==> Declared(name) && !Exists(s, TypeScriptPath(bundle, name)) && !Exists(s, JavaScriptPath(bundle, name)))
            && (v.Failed? ==> v.failure == TransformerNotFound(name, bundle))
            && (v.Done? ==> v.value == name))
  {
  }

  /** A descriptor that is missing, or is `null`, fails validation with the
      error of reading its `transformer`, whatever the bundle holds. */
  lemma ValidateMissingConfig(bundle: string, s: FsState)
    ensures ValidateConfigIn(None, bundle, s) == Failed(DescriptorUnreadable(true))
    ensures ValidateConfigIn(Some(JNull), bundle, s) == Failed(DescriptorUnreadable(false))
  {
  }

  /** `loadTransformer`'s choice: the default when none is declared, the
      `.ts` file whenever it exists (even beside a `.js` file), the `.js`
      file only without a `.ts` file, and an error when neither exists,
      which validation would have reported first. */
  lemma SelectTransformerCases(name: Option<Json>, bundle: string, s: FsState)
    ensures !Declared(name) ==> SelectTransformer(name, bundle, s) == Done(DefaultSource)
    ensures Declared(name) && Exists(s, TypeScriptPath(bundle, name)) ==>
      SelectTransformer(name, bundle, s) == Done(TypeScriptFile(TypeScriptPath(bundle, name)))
    ensures Declared(name) && !Exists(s, TypeScriptPath(bundle, name)) && Exists(s, JavaScriptPath(bundle, name)) ==>
      SelectTransformer(name, bundle, s) == Done(JavaScriptFile(JavaScriptPath(bundle, name)))
    ensures SelectTransformer(name, bundle, s).Failed? <==>
      Declared(name) && !Exists(s, TypeScriptPath(bundle, name)) && !Exists(s, JavaScriptPath(bundle, name))
    ensures SelectTransformer(name, bundle, s).Failed? ==>
      ValidateConfigIn(Some(JObject([("transformer", name.value)])), bundle, s) == Failed(TransformerNotFound(name, bundle))
  {
    if SelectTransformer(name, bundle, s).Failed? {
      var config := JObject([("transformer", name.value)]);
      assert JsonPointer.Step(config, "transformer") == name;
    }
  }

  /** A transformer that passed validation is either the default or a file
      that exists, so loading it can only fail in the import, and then with
      the import prefix. */
  lemma ValidatedTransformerHasSource(config: Option<Json>, bundle: string, s: FsState,
                                      importModule: string -> Imported, defaultTransformer: Transformer)
    requires ValidateConfigIn(config, bundle, s).Done?
    ensures var name := ValidateConfigIn(config, bundle, s).value;
      var r := LoadTransformerFrom(name, bundle, s, importModule, defaultTransformer);
      && SelectTransformer(name, bundle, s).Done?
      && (r.Failed? ==> (r.failure.TransformerImportFailed? || r.failure.TransformerNotAClass?)
                        && Text.StartsWith(ErrorMessage(r.failure), LoadFailure))
  {
    var name := ValidateConfigIn(config, bundle, s).value;
    var r := LoadTransformerFrom(name, bundle, s, importModule, defaultTransformer);
    if r.Failed? {
      match r.failure
      case TransformerImportFailed(m) => Text.PrefixOfConcat(LoadFailure, m);
      case TransformerNotAClass => Text.PrefixOfConcat(LoadFailure, NotAConstructorMessage);
    }
  }

  /** The pipeline's steps come in its order, each at most once, starting
      with the cleaning and the read; the pipeline reaches generation exactly
      when all seven steps ran. */
  lemma PipelineOrder(p: Setup, config: Option<Json>, s: FsState)
    ensures var run := PipelineRun(p, config, s);
      && 2 <= |run.steps| <= 7
      && run.steps[0] == CleanStep(p.outputDir) && run.steps[1] == ReadStep(p.inputPath)
      && (forall i | 0 <= i < |run.steps| :: Rank(run.steps[i]) == i + 1)
      && (run.outcome.Done? <==> |run.steps| == 7)
  {
    var r := ReadRun(p, config, s);
    ReadRunOrder(p, config, s);
    RankedCons(CleanStep(p.outputDir), r.steps, 1);
    assert PipelineRun(p, config, s).steps == [CleanStep(p.outputDir)] + r.steps;
  }

  /** The steps from position `from` on, in pipeline order. */
  predicate Ranked(steps: seq<Step>, from: nat) {
    forall i | 0 <= i < |steps| :: Rank(steps[i]) == from + i
  }

  lemma RankedCons(step: Step, rest: seq<Step>, from: nat)
    requires Rank(step) == from && Ranked(rest, from + 1)
    ensures Ranked([step] + rest, from)
  {
    forall i | 0 < i < |rest| + 1 ensures Rank(([step] + rest)[i]) == from + i {
      assert ([step] + rest)[i] == rest[i - 1];
    }
  }

  lemma ReadRunOrder(p: Setup, config: Option<Json>, s: FsState)
    ensures var run := ReadRun(p, config, s);
      && 1 <= |run.steps| && run.steps[0] == ReadStep(p.inputPath)
      && Ranked(run.steps, 2) && (run.outcome.Done? <==> |run.steps| == 6)
  {
    match ReadInputFrom(s, p.inputPath)
    case Failed(_) =>
    case Done(text) =>
      var v := ValidateRun(p, config, s, text);
      ValidateRunOrder(p, config, s, text);
      RankedCons(ValidateStep, v.steps, 3);
      RankedCons(ReadStep(p.inputPath), [ValidateStep] + v.steps, 2);
      assert [ReadStep(p.inputPath), ValidateStep] + v.steps == [ReadStep(p.inputPath)] + ([ValidateStep] + v.steps);
  }

  lemma ValidateRunOrder(p: Setup, config: Option<Json>, s: FsState, text: string)
    ensures var run := ValidateRun(p, config, s, text);
      Ranked(run.steps, 4) && (run.outcome.Done? <==> |run.steps| == 4)
  {
    match ValidateConfigIn(config, p.bundle, s)
    case Failed(_) =>
    case Done(name) =>
      LoadRunOrder(p, name, s, text);
      RankedCons(LoadStep(name), LoadRun(p, name, s, text).steps, 4);
  }

  lemma LoadRunOrder(p: Setup, name: Option<Json>, s: FsState, text: string)
    ensures var run := LoadRun(p, name, s, text);
      Ranked(run.steps, 5) && (run.outcome.Done? <==> |run.steps| == 3)
  {
    match LoadTransformerFrom(name, p.bundle, s, p.importModule, p.defaultTransformer)
    case Failed(_) =>
    case Done(t) =>
      RankedCons(DereferenceStep(text), DereferenceRun(p, t, text).steps, 5);
  }

  /** A pipeline that reaches generation loaded the transformer the
      descriptor declares, gave the dereferencer exactly the model text, the
      transformer exactly the dereferenced document, and generation exactly
      the transformer's result. */
  lemma PipelineDataFlow(p: Setup, config: Option<Json>, s: FsState)
    ensures var run := PipelineRun(p, config, s);
      (run.outcome.Done? ==>
            && |run.steps| == 7
            && p.inputPath in s.files
            && config.Some? && !config.value.JNull?
            && run.steps[3] == LoadStep(JsonPointer.Step(config.value, "transformer"))
            && LoadTransformerFrom(JsonPointer.Step(config.value, "transformer"), p.bundle, s, p.importModule, p.defaultTransformer)
                 == Done(run.outcome.value.0)
            && run.steps[4] == DereferenceStep(s.files[p.inputPath])
            && p.dereference(p.mapping, s.files[p.inputPath]).Ok?
            && run.steps[5] == TransformStep(p.dereference(p.mapping, s.files[p.inputPath]).value)
            && run.steps[6] == GenerateStep(run.outcome.value.1, p.outputDir)
            && run.outcome.value.0.transform(p.dereference(p.mapping, s.files[p.inputPath]).value) == Ok(run.outcome.value.1))
  {
  }

  /** Every failure is reported with the one prefix, wrapping the failure of
      the step that failed; a missing model file ends the pipeline right
      after it was looked for. */
  lemma PipelineFailures(p: Setup, config: Option<Json>, s: FsState)
    ensures var run := PipelineRun(p, config, s);
      && (Reported(run).Threw? <==> run.outcome.Failed?)
      && (Reported(run).Threw? ==>
            && Reported(run).failure == GenerationFailed(run.outcome.failure)
            && Text.StartsWith(ErrorMessage(Reported(run).failure), GenerationFailure)
            && ErrorMessage(Reported(run).failure)[|GenerationFailure|..] == ErrorMessage(run.outcome.failure))
      && (!Exists(s, p.inputPath) ==>
            && run.steps == [CleanStep(p.outputDir), ReadStep(p.inputPath)]
            && Reported(run) == Threw(GenerationFailed(ModelNotFound(p.inputPath))))
  {
    var run := PipelineRun(p, config, s);
    if run.outcome.Failed? {
      Text.PrefixOfConcat(GenerationFailure, ErrorMessage(run.outcome.failure));
    }
  }

  /** As written, `processTemplate` never reaches generation: the descriptor
      it validates is always missing, so when the model file can be read it
      fails at validation, reading `transformer` of `undefined`. */
  lemma AsWrittenNeverGenerates(p: Setup, s: FsState)
    ensures var run := PipelineRun(p, None, s);
      && run.outcome.Failed?
      && |run.steps| <= 3
      && (p.inputPath in s.files ==>
            && run.steps == [CleanStep(p.outputDir), ReadStep(p.inputPath), ValidateStep]
            && Reported(run) == Threw(GenerationFailed(DescriptorUnreadable(true))))
  {
  }

  /** A transformer that throws on the dereferenced model ends the pipeline
      after the transform step, before generation, and its error is rethrown
      with the one prefix. */
  lemma TransformFailureReported(p: Setup, config: Json, s: FsState)
    requires p.inputPath in s.files
    requires ValidateConfigIn(Some(config), p.bundle, s).Done?
    requires LoadTransformerFrom(JsonPointer.Step(config, "transformer"), p.bundle, s, p.importModule, p.defaultTransformer).Done?
    requires p.dereference(p.mapping, s.files[p.inputPath]).Ok?
    requires LoadTransformerFrom(JsonPointer.Step(config, "transformer"), p.bundle, s, p.importModule, p.defaultTransformer).value
               .transform(p.dereference(p.mapping, s.files[p.inputPath]).value).Err?
    ensures var e := LoadTransformerFrom(JsonPointer.Step(config, "transformer"), p.bundle, s, p.importModule, p.defaultTransformer).value
                       .transform(p.dereference(p.mapping, s.files[p.inputPath]).value).error;
      var run := PipelineRun(p, Some(config), s);
      && |run.steps| == 6
      && run.steps[5] == TransformStep(p.dereference(p.mapping, s.files[p.inputPath]).value)
      && Reported(run) == Threw(GenerationFailed(TransformFailed(e)))
      && ErrorMessage(Reported(run).failure) == GenerationFailure + e
  {
  }

  /** With the loader initialized, a model file that can be read, a
      transformer that loads, a model that dereferences and a transform that
      does not throw, the corrected pipeline reaches generation. */
  lemma CorrectedReachesGeneration(p: Setup, config: Json, s: FsState)
    requires CheckConfig(config).Ok?
    requires p.inputPath in s.files
    requires ValidateConfigIn(Some(config), p.bundle, s).Done?
    requires LoadTransformerFrom(JsonPointer.Step(config, "transformer"), p.bundle, s, p.importModule, p.defaultTransformer).Done?
    requires p.dereference(p.mapping, s.files[p.inputPath]).Ok?
    requires LoadTransformerFrom(JsonPointer.Step(config, "transformer"), p.bundle, s, p.importModule, p.defaultTransformer).value
               .transform(p.dereference(p.mapping, s.files[p.inputPath]).value).Ok?
    ensures PipelineRun(p, Some(config), s).outcome.Done?
    ensures Reported(PipelineRun(p, Some(config), s)) == Completed
  {
    AcceptedConfig(config);
  }
}
