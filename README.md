# architecture-as-code `shared/` core, modelled in Dafny

This project models the offline core of the `shared/` package of
architecture-as-code (the CALM tooling) and proves properties of that model.
It covers five parts:

- **Schema directory** (`Schemas`). This is a store of JSON schema documents
  keyed by `$id`, in insertion order, with the reserved `pattern` entry.
  - Loading keeps only `*json` files and documents with an `$id`; a later
    document replaces an earlier one with the same `$id`.
  - `getDefinitionRecursive` resolves `<schema-id>#<pointer>` references. A
    missing target gives a placeholder, a terminal definition comes back
    qualified, a cycle comes back as stored, and a `$ref` chain is merged.
  - Local references (`$ref` values starting with `#`) are qualified with the
    owning schema id.
  - Pointer lookup follows JSON Pointer, sections 3 and 4 of RFC 6901
    (`JsonPointer`).
- **Reference resolvers** (`ReferenceResolvers`): the file, in-memory and
  HTTP resolvers, and the composite resolver that tries the file, then HTTP,
  then fails with a fixed message. The file system and the HTTP client are
  oracles. Each resolver records the references it was asked to resolve, so
  which one the composite consulted can be observed.
- **Template bundle loader** (`TemplateBundles`): the acceptance rule for
  `index.json`, the re-wrapping of its errors, the template-file filter, and
  `initialize` with its getters. It is a class over a journalled file system
  (`FileSystems`).
- **Template engine** (`TemplateEngines`, with the properties in
  `TemplateEngineProperties`): compiling the bundle's files, registering the
  transformer's helpers, and `generate`/`processTemplate`.
  - Handlebars compiling and rendering are uninterpreted. Its partial and
    helper registries are a `Handlebars` object.
  - Every file-system change goes to a journal, and every warning to a ghost
    list.
  - Each method is proved against a specification function that yields the
    changes, the warnings, the partial registry and the error.
- **Template processor** (`TemplateProcessors`): `processTemplate` and its
  steps.
  - The steps run in order: clean the output directory, read the model file,
    validate the descriptor, load the transformer, dereference, transform and
    start generation. Each step is recorded in a ghost list.
  - `validateConfig` checks the declared transformer, and `loadTransformer`
    prefers the `.ts` file over the `.js` file.
  - Every failure is rethrown with one prefix. The errors are a `Failure`
    datatype, and `ErrorMessage` gives the text of each.
  - `processTemplate` as written reads the descriptor from a loader it never
    initialized; the model has it both as written and with the loader
    initialized at the start of its `try` block (see "Findings").

JSON is a datatype (`Json.Json`). JavaScript truthiness, `String(v)`,
property reads of `undefined`/`null`, `split`, `indexOf` and
`replace` with a string pattern (including its `$` substitutions) are written
out with their JavaScript semantics in `Json` and `Text`.

## Model

| member | source | states |
|---|---|---|
| JsonPointer.UnescapeEscape | shared/src/schema-directory.ts:74 | decoding a reference token undoes encoding it, for every token (RFC 6901, sections 3 and 4) |
| JsonPointer.ParseCompile | shared/src/schema-directory.ts:74 | parsing the text of any compiled token list gives that list back |
| JsonPointer.WalkConcat | shared/src/schema-directory.ts:74 | evaluating a concatenated token list evaluates the first part, then the second from where the first ended |
| Schemas.RootRefInRefs | shared/src/schema-directory.ts:95-99 | the `$ref` a definition delegates to is one of the references the definition holds |
| Schemas.WalkRefs | shared/src/schema-directory.ts:69-75 | a value a pointer reaches holds no reference that its document lacks |
| Schemas.FollowedRefIsStored | shared/src/schema-directory.ts:89-104 | the `$ref` a resolution follows is a reference held in the store |
| Schemas.UnvisitedShrinks | shared/src/schema-directory.ts:81-104 | following a new stored reference shrinks the set of stored references not yet visited (the termination measure) |
| Schemas.QualifyWalk | shared/src/schema-directory.ts:138-149 | through any pointer, qualification keeps the same paths; a local `$ref` reached gets the schema id in front, and every other value reached is qualified |
| Schemas.QualifyLeavesNoLocalRefs | shared/src/schema-directory.ts:138-149 | qualifying with a real schema id (non-empty, not starting with `#`) leaves no local `$ref` anywhere |
| Schemas.QualifyFixesQualified | shared/src/schema-directory.ts:138-149 | a document with no local `$ref` is unchanged by qualification |
| Schemas.QualifyIdempotent | shared/src/schema-directory.ts:138-149 | qualifying twice with the same real schema id gives the same result as qualifying once |
| Schemas.QualifyField | shared/src/schema-directory.ts:138-149 | qualification keeps each member other than `$ref` and qualifies its value |
| Schemas.QualifyPropertyNames | shared/src/schema-directory.ts:138-149 | qualification keeps the names of `properties` and its shape |
| Schemas.MergeField | shared/src/schema-directory.ts:105 | after a merge, each member name has the outer member merged with the inner one of that name, or the inner member when the outer definition lacks the name |
| Schemas.MergeKeepsProperties | shared/src/schema-directory.ts:104-107 | the merge's property names are exactly the union of both sides' property names |
| Schemas.MergeOuterPropertyWins | shared/src/schema-directory.ts:105 | a property declared on both sides takes the outer declaration |
| Schemas.MergeUnitesRequired | shared/src/schema-directory.ts:105 | the merge's `required` items are the union of both sides' items |
| Schemas.MergePrecedence | shared/src/schema-directory.ts:105 | any other member the outer definition declares keeps its outer value, and one it lacks comes from the inner side |
| Schemas.SplitReferenceParts | shared/src/schema-directory.ts:78-80 | `<id>#<pointer>` splits back into the id and the pointer; a reference without `#` has no pointer |
| Schemas.LocalReferenceUsesCurrentSchema | shared/src/schema-directory.ts:84-87 | a reference with nothing before `#` is looked up in the current schema |
| Schemas.TargetSchemaHasNoHash | shared/src/schema-directory.ts:78-87 | the schema id a reference resolves against is non-empty and holds no `#` when the current id does not |
| Schemas.ResolveMissing | shared/src/schema-directory.ts:89-94 | an unknown schema, a pointer that addresses nothing, or a falsy value gives exactly the placeholder for the full reference, with the reference pushed onto the visited list |
| Schemas.ResolveUnknownSchema | shared/src/schema-directory.ts:110-116 | a reference into a schema that is not stored gives the placeholder, whose `properties.missing-value` is `MISSING OBJECT, ref: <ref> could not be resolved` |
| Schemas.PlaceholderHasNoLocalRefs | shared/src/schema-directory.ts:110-116 | the placeholder holds no local reference |
| Schemas.ResolveTerminal | shared/src/schema-directory.ts:95-98 | a definition with no root `$ref` comes back qualified with the schema it was found in |
| Schemas.ResolveCycleBreak | shared/src/schema-directory.ts:99-103 | a definition whose `$ref` was already visited comes back as stored, unmerged and unqualified |
| Schemas.ResolveChain | shared/src/schema-directory.ts:104-107 | a non-cyclic chain holds the property names of the inner resolution and of the outer definition, and every other outer member, qualified; the visited list is the one the inner resolution left |
| Schemas.ResolveVisited | shared/src/schema-directory.ts:81-104 | the visited list a resolution leaves is the caller's list plus the reference, followed only by stored references, each visited once |
| Schemas.ResolutionDepthBound | shared/src/schema-directory.ts:81-104 | a top-level resolution visits at most one more reference than the store holds distinct `$ref` strings |
| Schemas.OnlyCycleBreakLeavesLocalRefs | shared/src/schema-directory.ts:95-107 | a resolved definition that still holds a local reference came from a cycle break: its own `$ref` is on the visited list |
| Schemas.Registry.Set | shared/src/schema-directory.ts:50 | `Map.set` keeps the registry well formed; a new key goes last, a known key keeps its place, the key gets the document, and no other entry changes |
| Schemas.AbsorbKeepsOrder | shared/src/schema-directory.ts:54 | copying the loaded entries into the store keeps it well formed and keeps the order of the keys it already had |
| Schemas.AbsorbEntries | shared/src/schema-directory.ts:54 | after the copy, each loaded key holds its loaded document and every other key keeps its old one |
| Schemas.LoadSchema | shared/src/schema-directory.ts:176-194 | an error reading or parsing a file is passed on; a document is kept only when it has an `$id`, and then it is the parsed one |
| Schemas.Collect | shared/src/schema-directory.ts:47-52 | collecting documents over a well-formed registry gives a well-formed registry |
| Schemas.CollectFails | shared/src/schema-directory.ts:47-52 | loading fails exactly when some path fails to load |
| Schemas.CollectKeepsLatest | shared/src/schema-directory.ts:47-52 | a key is stored exactly when it was before or some path loads a document with that `$id`; the last such document wins |
| Schemas.JsonFiles | shared/src/schema-directory.ts:45 | the listing keeps exactly the names that end in `json` |
| Schemas.SchemaPathsMembers | shared/src/schema-directory.ts:45-46 | the paths read are exactly the directory joined with each listed name that ends in `json` |
| Schemas.SchemaDirectory.constructor | shared/src/schema-directory.ts:12-22 | a new directory has an empty store |
| Schemas.SchemaDirectory.LoadCurrentPatternAsSchema | shared/src/schema-directory.ts:24-28 | the pattern is stored under `pattern`, and nothing else changes |
| Schemas.SchemaDirectory.LoadSchemas | shared/src/schema-directory.ts:35-67 | a failed listing or load fails and leaves the store unchanged; otherwise the collected documents are copied into the store in order |
| Schemas.SchemaDirectory.GetLoadedSchemas | shared/src/schema-directory.ts:154-156 | every stored id, each once |
| Schemas.SchemaDirectory.GetSchema | shared/src/schema-directory.ts:163-174 | the stored document, or nothing exactly when the id is unknown |
| Schemas.SchemaDirectory.GetDefinition | shared/src/schema-directory.ts:123-129 | a reference whose target schema is not stored gives the missing-schema placeholder for that reference |
| Schemas.SelfReferenceFromPattern | shared/src/schema-directory.ts:24-28 | `#<pointer>` resolves against the document stored under `pattern`; a terminal definition found there comes back qualified with `pattern` |
| ReferenceResolvers.FileReferenceResolver.constructor | shared/src/resolver/calm-reference-resolver.ts:10 | a new file resolver over the given file oracles, with nothing requested yet |
| ReferenceResolvers.FileReferenceResolver.Resolve | shared/src/resolver/calm-reference-resolver.ts:25-34 | the reference is recorded; the result is `File not found: <ref>` for a missing path, else the parsed file |
| ReferenceResolvers.FileResolutionNeedsFile | shared/src/resolver/calm-reference-resolver.ts:29-33 | a file resolution succeeds only for an existing path, with the parsed file, and fails with `File not found: <ref>` for a missing one |
| ReferenceResolvers.InMemoryResolver.constructor | shared/src/resolver/calm-reference-resolver.ts:40-42 | the resolver holds the given data |
| ReferenceResolvers.InMemoryResolver.Resolve | shared/src/resolver/calm-reference-resolver.ts:48-53 | success exactly when the key is present with a truthy value, giving that value; otherwise `Mocked reference not found: <ref>` |
| ReferenceResolvers.InMemoryAsymmetry | shared/src/resolver/calm-reference-resolver.ts:44-53 | whatever resolves is claimed, but a present key with a falsy value is claimed and still fails |
| ReferenceResolvers.HttpReferenceResolver.constructor | shared/src/resolver/calm-reference-resolver.ts:56 | a new HTTP resolver over the given client, with nothing requested yet |
| ReferenceResolvers.HttpReferenceResolver.Resolve | shared/src/resolver/calm-reference-resolver.ts:71-83 | the reference is recorded; the result is the response body, a client error wrapped with the reference, or any other error unchanged |
| ReferenceResolvers.HttpSchemes | shared/src/resolver/calm-reference-resolver.ts:67-69 | every `http://` and `https://` reference is claimed, and every claimed reference begins with `http` |
| ReferenceResolvers.HttpErrors | shared/src/resolver/calm-reference-resolver.ts:74-82 | a client error becomes `HTTP request failed for <ref>: ` followed by its message; any other error is kept; success exactly on a response |
| ReferenceResolvers.CompositeReferenceResolver.constructor | shared/src/resolver/calm-reference-resolver.ts:100-103 | two fresh, distinct sub-resolvers over the given oracles |
| ReferenceResolvers.CompositeReferenceResolver.Resolve | shared/src/resolver/calm-reference-resolver.ts:109-129 | the result is the file resolution it delivers, else the HTTP one, else the fixed error; the file resolver is asked only when it claims the reference, and the HTTP resolver only when it claims it and the file resolver did not deliver |
| ReferenceResolvers.CompositePrefersFile | shared/src/resolver/calm-reference-resolver.ts:112-118 | when the file resolver claims the reference and delivers, that is the answer and HTTP is never consulted |
| ReferenceResolvers.CompositeFallsBackToHttp | shared/src/resolver/calm-reference-resolver.ts:112-126 | HTTP is consulted exactly for a web reference the file resolver did not deliver, and its response is then the answer |
| ReferenceResolvers.CompositeFailure | shared/src/resolver/calm-reference-resolver.ts:128 | the composite fails exactly when neither sub-resolver delivered, always with `Composite resolver: Unable to resolve reference <ref>`; whatever it resolves it claims |
| TemplateBundles.AcceptedConfig | shared/src/template/template-bundle-file-loader.ts:29-35 | a descriptor is accepted exactly when `name` is truthy and `templates` is an array, and is then returned unchanged |
| TemplateBundles.LoadConfigOutcomes | shared/src/template/template-bundle-file-loader.ts:15-40 | a missing `index.json` fails with the fixed not-found message; any other failure is wrapped with `Failed to parse index.json: `; a success is the parsed descriptor, which the acceptance rule accepts |
| TemplateBundles.TemplateBundleFileLoader.constructor | shared/src/template/template-bundle-file-loader.ts:11-13 | a new loader for the bundle path, with neither descriptor nor files loaded |
| TemplateBundles.TemplateBundleFileLoader.LoadConfig | shared/src/template/template-bundle-file-loader.ts:15-40 | `loadConfig` gives the outcome of the descriptor rule on the current file system |
| TemplateBundles.TemplateBundleFileLoader.LoadTemplateFiles | shared/src/template/template-bundle-file-loader.ts:42-60 | on success, the keys are exactly the directory entries whose name holds a `.`, each mapped to its text; it fails exactly when the directory or one of those files cannot be read |
| TemplateBundles.TemplateBundleFileLoader.Initialize | shared/src/template/template-bundle-file-loader.ts:62-65 | the descriptor is loaded before the files, and a descriptor failure loads nothing; success exactly when both load, and the fields then hold the descriptor and the files |
| FileSystems.CleanLeavesEmptyDirectory | shared/src/template/template-processor.ts:63-65 | removing a tree and creating it again leaves the directory existing, with nothing below it |
| FileSystems.DirnameOfJoin | shared/src/template/template-engine.ts:92-93 | the directory of a path joined from a directory and a name without `/` is that directory |
| FileSystems.FileSystem.ReadFile | shared/src/template/template-processor.ts:73 | reading succeeds exactly for an existing file, with its text |
| FileSystems.FileSystem.ReadDir | shared/src/template/template-bundle-file-loader.ts:50 | listing succeeds exactly for a directory; it then lists exactly the names of the entries directly below it, and every name listed exists below it |
| FileSystems.FileSystem.Perform | shared/src/template/template-processor.ts:60-66 | each change applies to the state and is added to the journal, so the state stays the initial one with the journal replayed |
| TemplateEngines.Handlebars.RegisterPartial | shared/src/template/template-engine.ts:75 | the partial is registered under its name, and the helpers are unchanged |
| TemplateEngines.Handlebars.RegisterHelper | shared/src/template/template-engine.ts:41 | the helper is added after those already registered, and the partials are unchanged |
| TemplateEngines.Member | shared/src/template/template-engine.ts:82 | reading a property fails exactly on `undefined` or `null`; on an object it is the member of that name |
| TemplateEngines.OutputNameCases | shared/src/template/template-engine.ts:91 | a file is named exactly when the output pattern is text and the instance is neither `undefined` nor `null`; the name is the pattern with its first `{{id}}` replaced by the instance's `id` |
| TemplateEngines.PartialNames | shared/src/template/template-engine.ts:72 | `for ... of` iterates exactly arrays and strings; an array gives its elements as text, in order |
| TemplateEngines.CompileTemplates | shared/src/template/template-engine.ts:22-32 | one compiled template per file, under the same name, holding that file's source |
| TemplateEngines.TemplateEngine.constructor | shared/src/template/template-engine.ts:15-20 | the engine keeps the loader's descriptor and compiles its files with the same key set; the transformer's helpers are registered in order after those already there; the partials are unchanged |
| TemplateEngines.TemplateEngine.WriteOutput | shared/src/template/template-engine.ts:91-95 | the journal grows by the changes of writing one instance's file; the error is the one that specification gives |
| TemplateEngines.TemplateEngine.WriteInstances | shared/src/template/template-engine.ts:90-96 | the journal grows by the changes of the repeated-output specification, and the error is the one it gives |
| TemplateEngines.TemplateEngine.RegisterPartials | shared/src/template/template-engine.ts:71-80 | the partial registry and the warnings become those of the partials specification, and no file changes |
| TemplateEngines.TemplateEngine.MakeOutput | shared/src/template/template-engine.ts:84-105 | the journal and the warnings grow by those of the output-type specification |
| TemplateEngines.TemplateEngine.ProduceOutput | shared/src/template/template-engine.ts:82-105 | `data[from]` is read, then the output is made as the source specification says |
| TemplateEngines.TemplateEngine.ProcessListed | shared/src/template/template-engine.ts:71-105 | the listed partials are registered, then the output is made, as the two specifications composed say |
| TemplateEngines.TemplateEngine.ProcessTemplate | shared/src/template/template-engine.ts:62-106 | the journal, the partials, the warnings and the error become those of the entry specification |
| TemplateEngines.TemplateEngine.ProcessEntries | shared/src/template/template-engine.ts:55-57 | the entries are processed in order, as the entries specification says, and processing stops at the first error |
| TemplateEngines.TemplateEngine.CreateOutputDir | shared/src/template/template-engine.ts:50-53 | the output directory is created exactly when it does not exist |
| TemplateEngines.TemplateEngine.Generate | shared/src/template/template-engine.ts:46-60 | the journal, the partials, the warnings and the outcome become those of the generate specification, which walks an array `templates` by its elements and a string one by its characters |
| TemplateEngines.InstancesKeepPartials | shared/src/template/template-engine.ts:90-96 | writing instances registers no partial and logs nothing |
| TemplateEngineProperties.PartialsRunEffect | shared/src/template/template-engine.ts:71-80 | registering partials changes no file and raises no error; each listed compiled partial is registered, every other registration is kept, and exactly the listed names without a template are warned about |
| TemplateEngineProperties.WriteRunShape | shared/src/template/template-engine.ts:91-94 | one instance that names a file gives its directory, then the file holding its render; otherwise the naming error and no change |
| TemplateEngineProperties.InstancesRunSucceeds | shared/src/template/template-engine.ts:90-96 | repeated output succeeds exactly when every instance names a file |
| TemplateEngineProperties.InstancesRunWrites | shared/src/template/template-engine.ts:90-96 | when every instance names a file, each instance in array order gets its directory and then its file with its own render, two changes per instance |
| TemplateEngineProperties.FirstUnnamed | shared/src/template/template-engine.ts:90-96 | the index of the first instance that names no file; every instance before it names one |
| TemplateEngineProperties.InstancesRunStopsAtFirstFailure | shared/src/template/template-engine.ts:90-96 | repeated output writes the files of the instances before the first one that names no file, then stops with that instance's error |
| TemplateEngineProperties.OutputRunCases | shared/src/template/template-engine.ts:84-105 | repeated output of an array writes per instance; of a non-array only warns; single output writes one directory and then one file rendered from `data[from]` exactly when that data names a file, and fails otherwise; any other output type only warns; none registers a partial |
| TemplateEngineProperties.EntryRunCases | shared/src/template/template-engine.ts:62-82 | a `null` entry fails; an unknown template is skipped with one warning and no change; partials that cannot be iterated fail; otherwise its partials are registered first, and its files are those of its output |
| TemplateEngineProperties.EntriesRunAppend | shared/src/template/template-engine.ts:55-57 | processing `a + b` processes `a` and then, unless that failed, `b` with the partials `a` left |
| TemplateEngineProperties.GenerateCreatesOutputDirFirst | shared/src/template/template-engine.ts:50-53 | a missing output directory is created before anything else |
| TemplateEngineProperties.GenerateNeedsTemplateList | shared/src/template/template-engine.ts:55 | a descriptor whose `templates` is neither an array nor a string fails with `this.config.templates is not iterable`, making at most the output directory |
| TemplateEngineProperties.StringEntriesSkipped | shared/src/template/template-engine.ts:55-68 | when no template is called `undefined`, string entries are each skipped with one warning about template `undefined`, and nothing else happens |
| TemplateEngineProperties.GenerateOverString | shared/src/template/template-engine.ts:50-68 | a string `templates` is walked by its characters: with no template called `undefined`, generation succeeds, makes at most the output directory, registers nothing, and warns once per character about template `undefined` |
| TemplateEngineProperties.GenerateRunsEntries | shared/src/template/template-engine.ts:50-57 | for a descriptor the loader accepts, generation creates the directory when missing and then does what processing its entries does |
| Text.IndexOf | shared/src/template/template-engine.ts:91 | `indexOf` finds the first occurrence of the pattern, and -1 only when there is none |
| Text.SubstitutionLiteral | shared/src/template/template-engine.ts:91 | a replacement without `$` is inserted verbatim by `replace` |
| Text.Split | shared/src/schema-directory.ts:78 | `split` on one character always gives at least one part, and no part holds the separator |
| Text.SplitJoin | shared/src/schema-directory.ts:78 | splitting on a separator undoes joining parts that do not contain it |
| Text.JoinSplit | shared/src/schema-directory.ts:78 | joining the parts of a split gives the text back |
| TemplateProcessors.ReadInputFrom | shared/src/template/template-processor.ts:68-74 | the model file is read exactly when it is a file; a missing path is `ModelNotFound`, and a directory is `ModelUnreadable` |
| TemplateProcessors.ValidateConfigCases | shared/src/template/template-processor.ts:76-92 | reading `config.transformer` throws exactly when the descriptor is missing or `null`, and validation then fails with that error; otherwise it fails exactly when a declared transformer has neither a `.ts` nor a `.js` file, and passes on the value read |
| TemplateProcessors.ValidateMissingConfig | shared/src/template/template-processor.ts:76-77 | a missing descriptor and a `null` descriptor each fail validation reading `transformer` |
| TemplateProcessors.SelectTransformerCases | shared/src/template/template-processor.ts:94-125 | no declared transformer gives the default; `.ts` wins whenever it exists; `.js` is used only without `.ts`; neither fails, and validation would have failed first |
| TemplateProcessors.ValidatedTransformerHasSource | shared/src/template/template-processor.ts:127-138 | a transformer that passed validation has a source, so loading it fails only in the import, with the `❌ Error loading transformer: ` prefix |
| TemplateProcessors.CleanEmptiesOutput | shared/src/template/template-processor.ts:60-66 | after cleaning, the output directory exists; when it existed, nothing below it survives; otherwise the files are untouched |
| TemplateProcessors.PipelineOrder | shared/src/template/template-processor.ts:38-51 | the steps come in pipeline order, each at most once, starting with the clean and the read; generation starts exactly when all seven ran |
| TemplateProcessors.TransformFailureReported | shared/src/template/template-processor.ts:47-57 | a transformer whose `getTransformedModel` throws stops the pipeline right after the transform step, and its error is rethrown with the `❌ Error generating template: ` prefix |
| TemplateProcessors.PipelineDataFlow | shared/src/template/template-processor.ts:40-51 | a pipeline that reaches generation loaded the declared transformer, dereferenced exactly the model text, transformed exactly the dereferenced document, and generated from exactly the transformer's result |
| TemplateProcessors.PipelineFailures | shared/src/template/template-processor.ts:54-57 | every failure is reported as `GenerationFailed` of the step's failure, whose message is `❌ Error generating template: ` followed by that failure's message; a missing model file stops right after the read |
| TemplateProcessors.AsWrittenNeverGenerates | shared/src/template/template-processor.ts:35-42 | with the descriptor of a loader that was never initialized, the pipeline always fails; with a readable model file it fails at validation, reading `transformer` of `undefined` |
| TemplateProcessors.CorrectedReachesGeneration | shared/src/template/template-processor.ts:35-51 | with an initialized loader, a readable model, a transformer that loads, a model that dereferences and a transform that returns, the pipeline reaches generation and completes |
| TemplateProcessors.TemplateProcessor.constructor | shared/src/template/template-processor.ts:21-26 | the processor keeps its paths and its URL mapping; nothing has run yet |
| TemplateProcessors.TemplateProcessor.CleanOutputDirectory | shared/src/template/template-processor.ts:60-66 | the journal grows by the removal of an existing output tree, then by the creation of the directory |
| TemplateProcessors.TemplateProcessor.ReadInputFile | shared/src/template/template-processor.ts:68-74 | the outcome of the read rule on the current file system; a directory fails with the message `readFileSync` gives |
| TemplateProcessors.TemplateProcessor.Prepare | shared/src/template/template-processor.ts:40-47 | the read, validation, load, dereference and transform steps are recorded; the outcome is that of the staged pipeline, including a transform that throws, and no file changes |
| TemplateProcessors.TemplateProcessor.Generation | shared/src/template/template-processor.ts:49-51 | the engine is built over the loader and the transformer; generation's file changes are those of the generate specification, and the processor completes whatever generation does |
| TemplateProcessors.TemplateProcessor.Pipeline | shared/src/template/template-processor.ts:37-57 | the body of `try`: the steps taken, the outcome reported, and the journal (the clean, then generation if it started) are those of the pipeline specification |
| TemplateProcessors.TemplateProcessor.ProcessTemplateAsWritten | shared/src/template/template-processor.ts:28-58 | `processTemplate` as written: the pipeline with a missing descriptor; only the cleaning changes files |
| TemplateProcessors.TemplateProcessor.ProcessTemplate | shared/src/template/template-processor.ts:28-58 | `processTemplate` with the loader initialized as the first step of the `try` block: every failure is `GenerationFailed` with the `❌ Error generating template: ` prefix; a bundle that cannot be loaded fails with `BundleUnloadable` of its error, before anything is cleaned; otherwise the pipeline runs over the loaded descriptor and files |

## Left out

- Logging (`initLogger`, every `logger.log`) is not modelled. The engine's warnings are kept as a ghost list of `Warning` values, and `Message` gives the logged text.
- Async code that is not awaited is modelled as the synchronous algorithm it is meant to be:
  - `lookupDefinition` reads `getSchema` without `await`;
  - `getDefinitionRecursive` and `qualifyLocalReferences` are called without `await`;
  - `this.processTemplate` inside `generate` is called without `await`.
- TemplateProcessors.TemplateProcessor.Generation: `engine.generate` is called without `await`. Its file changes are applied, in order, but its failure never reaches the processor, which reports completion.
- TemplateEngines.TemplateEngine.ProcessEntries: stops at the first entry that throws. In the source each entry's rejection is left unhandled and later entries still start.
- `registerTemplateHelpers` is awaited nowhere either; the helpers are registered during construction, in order.
- `util.js` is not part of this model. `mergeSchemas` is a concrete shallow merge in which the outer side wins, `required` lists are united and `properties` are united with the outer side winning. Only "both sides' properties are present" is claimed about the source. `updateStringValuesRecursively` is modelled directly from the callback at schema-directory.ts:140-148.
- Schemas.Resolve: if a truthy `$ref` is not a string, the source's `split` throws. The model treats such a definition as terminal.
- Schemas.SchemaId: a document whose `$id` is truthy but not a string (a number, say) is skipped. The source stores it under that non-string key, which `getSchema` and reference lookup, both keyed by strings, can never find, although `getLoadedSchemas` would list it; the model's registry is keyed by strings.
- The `json-pointer` package's throwing is modelled as a lookup that finds nothing, which then gives the placeholder. It throws on a token that is missing, on a pointer that does not start with `/` (`JsonPointer.Parse` gives `None`), and on a reference with no `#`, whose pointer is `undefined` (`LookupDefinition` checks for a missing pointer).
- Schema files are read and parsed through an oracle (`readFile` + `JSON.parse`). The recursive directory listing is an input. The ENOENT branch of the `catch` in `loadSchemas` only logs.
- JSON numbers are integers; floating point is not modelled.
- FileSystems.FileSystem.Perform: `mkdirSync`, `writeFileSync` and `rmSync` never fail. In the source, writing a file onto a directory throws, and so does making a directory below a file. The `existsSync` check before creating the output directory is also true for a file, so later writes below it would throw; in the model one path can then be both a file and a directory.
- `fs`, `axios`, Handlebars compile and render, `JSON.parse`, the dynamic `import()` and `new` of a transformer module, and `TemplateCalmFileDereferencer.dereferenceCalmDoc` are oracles; `template-calm-file-dereferencer` is not part of this model. An exception thrown by the transformer's constructor is folded into the import oracle's `ImportFailed`.
- `ts-node`'s `register` changes no modelled state and is left out.
- `pathToFileURL` is left out, and the import oracle receives the path.
- `path.resolve` is taken as the identity, so the bundle paths of `validateConfig` and `loadTransformer` are the same. `path.join` is concatenation with one `/`, with no normalisation.
- The HTTP resolver's static logger and `getLogger` are not modelled.
- TemplateEngines.TemplateEngine.constructor: requires an initialized loader. The source also accepts an uninitialized one, and the constructor then throws on `Object.entries(undefined)`. The corrected processor never builds the engine that way.
- The error messages are modelled as `Failure` values with `ErrorMessage`. Contracts compare failures, not message texts, except where a lemma states a message.

## Findings

| source | as written | input that shows it | evidently intended | confidence | as-written member | corrected member |
|---|---|---|---|---|---|---|
| shared/src/template/template-processor.ts:35 | `processTemplate` reads `getConfig()` from a `TemplateBundleFileLoader` it never initializes. The same holds for the loader it gives the engine at line 49. So `config` is `undefined`, and `validateConfig` throws reading `config.transformer`. | any model file that exists: the pipeline always fails with `❌ Error generating template: Cannot read properties of undefined (reading 'transformer')` | initialize the loader inside the `try` block before reading the descriptor, and give that loader to the engine | not executed | TemplateProcessors.AsWrittenNeverGenerates | TemplateProcessors.CorrectedReachesGeneration |
