/** Properties of what `TemplateEngine.generate` and `processTemplate` do,
    stated on the specification functions of `TemplateEngines`. */
module TemplateEngineProperties {
  import opened Wrappers
  import opened Json
  import Text
  import opened FileSystems
  import opened TemplateBundles
  import opened TemplateEngines

  /** Registering listed partials touches no file and raises no error.
      Afterwards each listed name that has a compiled template is registered
      to that template and every other registration is unchanged; each
      warning is about a listed name without a template, and each such name
      is warned about. */
  lemma {:induction false} PartialsRunEffect(env: Env, reg: map<string, Compiled>, names: seq<string>)
    ensures var r := PartialsRun(env, reg, names);
      && r.ops == [] && r.error == None
      && r.partials.Keys == reg.Keys + (set n | n in names && n in env.templates)
      && (forall n | n in names && n in env.templates :: r.partials[n] == env.templates[n])
      && (forall k | k in reg && !(k in names && k in env.templates) :: r.partials[k] == reg[k])
      && |r.warnings| <= |names|
      && (forall w | w in r.warnings :: exists n | n in names && n !in env.templates :: w == MissingPartial(n))
      && (forall n | n in names && n !in env.templates :: MissingPartial(n) in r.warnings)
    decreases |names|
  {
    if names != [] {
      var step := PartialStep(env, reg, names[0]);
      PartialsRunEffect(env, step.partials, names[1..]);
      var rest := PartialsRun(env, step.partials, names[1..]);
      var r := PartialsRun(env, reg, names);
      assert r == Then(step, rest);
      assert forall n | n in names :: n == names[0] || n in names[1..];
      assert forall n | n in names[1..] :: n in names;
    }
  }

  /** The path of the file written for one instance. */
  function InstancePath(env: Env, output: Option<Json>, instance: Json): string
    requires OutputName(output, Some(instance)).Ok?
  {
    Text.PathJoin(env.outputDir, OutputName(output, Some(instance)).value)
  }

  /** One output file: when the instance names a file, its directory and
      then the file holding its render; otherwise the error and no change. */
  lemma WriteRunShape(env: Env, reg: map<string, Compiled>, t: Compiled, x: Json, output: Option<Json>)
    ensures var r := WriteRun(env, reg, t, Some(x), output);
      && r.partials == reg && r.warnings == []
      && (r.error == None <==> OutputName(output, Some(x)).Ok?)
      && (r.error == None ==>
            r.ops == [MakeDirs(Dirname(InstancePath(env, output, x))), WriteFile(InstancePath(env, output, x), env.render(t, x, reg, env.helpers))])
      && (r.error.Some? ==> r.ops == [] && r.error == Some(OutputName(output, Some(x)).error))
  {
  }

  /** Indexing past a leading pair. */
  lemma PairThenIndex(a: seq<FsOp>, b: seq<FsOp>, k: nat)
    requires |a| == 2 && 0 < k && 2 * k + 1 < |a| + |b|
    ensures (a + b)[2 * k] == b[2 * (k - 1)] && (a + b)[2 * k + 1] == b[2 * (k - 1) + 1]
  {
  }

  /** Repeated output succeeds exactly when every instance names a file. */
  lemma {:induction false} InstancesRunSucceeds(env: Env, reg: map<string, Compiled>, t: Compiled, xs: seq<Json>, output: Option<Json>)
    ensures InstancesRun(env, reg, t, xs, output).error == None <==>
      forall k | 0 <= k < |xs| :: OutputName(output, Some(xs[k])).Ok?
    decreases |xs|
  {
    if xs != [] {
      InstancesRunSucceeds(env, reg, t, xs[1..], output);
      WriteRunShape(env, reg, t, xs[0], output);
      assert forall k | 0 < k < |xs| :: xs[k] == xs[1..][k - 1];
    }
  }

  /** When every instance names a file, repeated output makes, for each
      instance in order, its directory and then its file holding the render
      of that instance. */
  lemma {:induction false} InstancesRunWrites(env: Env, reg: map<string, Compiled>, t: Compiled, xs: seq<Json>, output: Option<Json>)
    requires forall k | 0 <= k < |xs| :: OutputName(output, Some(xs[k])).Ok?
    ensures var r := InstancesRun(env, reg, t, xs, output);
      && |r.ops| == 2 * |xs|
      && forall k | 0 <= k < |xs| ::
           && r.ops[2 * k] == MakeDirs(Dirname(InstancePath(env, output, xs[k])))
           && r.ops[2 * k + 1] == WriteFile(InstancePath(env, output, xs[k]), env.render(t, xs[k], reg, env.helpers))
    decreases |xs|
  {
    if xs != [] {
      var first := WriteRun(env, reg, t, Some(xs[0]), output);
      assert forall k | 0 < k < |xs| :: xs[k] == xs[1..][k - 1];
      InstancesRunWrites(env, reg, t, xs[1..], output);
      var rest := InstancesRun(env, reg, t, xs[1..], output);
      WriteRunShape(env, reg, t, xs[0], output);
      var r := InstancesRun(env, reg, t, xs, output);
      assert r.ops == first.ops + rest.ops;
      forall k | 0 < k < |xs|
        ensures r.ops[2 * k] == rest.ops[2 * (k - 1)] && r.ops[2 * k + 1] == rest.ops[2 * (k - 1) + 1]
      {
        PairThenIndex(first.ops, rest.ops, k);
      }
    }
  }

  /** The index of the first instance that names no file, or the number of
      instances when they all do. */
  function FirstUnnamed(output: Option<Json>, xs: seq<Json>): (k: nat)
    ensures k <= |xs|
    ensures forall j | 0 <= j < k :: OutputName(output, Some(xs[j])).Ok?
    ensures k < |xs| ==> OutputName(output, Some(xs[k])).Err?
    decreases |xs|
  {
    if xs == [] then 0
    else if OutputName(output, Some(xs[0])).Err? then 0
    else
      var k := 1 + FirstUnnamed(output, xs[1..]);
      assert forall j | 0 < j < k :: xs[j] == xs[1..][j - 1];
      k
  }

  /** Repeated output stops at the first instance that names no file, with
      that instance's error, after the two changes of each instance before
      it. */
  lemma {:induction false} InstancesRunStopsAtFirstFailure(env: Env, reg: map<string, Compiled>, t: Compiled, xs: seq<Json>, output: Option<Json>)
    ensures var r := InstancesRun(env, reg, t, xs, output);
      var k := FirstUnnamed(output, xs);
      && |r.ops| == 2 * k
      && r.error == (if k < |xs| then Some(OutputName(output, Some(xs[k])).error) else None)
    decreases |xs|
  {
    if xs != [] {
      WriteRunShape(env, reg, t, xs[0], output);
      if OutputName(output, Some(xs[0])).Ok? {
        InstancesRunStopsAtFirstFailure(env, reg, t, xs[1..], output);
        var k' := FirstUnnamed(output, xs[1..]);
        assert FirstUnnamed(output, xs) == k' + 1;
        assert k' < |xs[1..]| ==> xs[1..][k'] == xs[k' + 1];
      }
    }
  }

  /** The output types: repeated output of an array writes a file per
      instance; repeated output of anything else only warns; single output
      makes one directory and one file when its data names a file and fails
      otherwise; any other output type only warns. None of them registers a
      partial. */
  lemma OutputRunCases(env: Env, reg: map<string, Compiled>, key: string, outputType: Option<Json>,
                       dataSource: Option<Json>, output: Option<Json>)
    requires key in env.templates
    ensures var r := OutputRun(env, reg, key, outputType, dataSource, output);
      && r.partials == reg
      && (outputType == Some(JString("repeated")) && dataSource.Some? && dataSource.value.JArray? ==>
            && r.warnings == []
            && (r.error == None <==> forall k | 0 <= k < |dataSource.value.items| :: OutputName(output, Some(dataSource.value.items[k])).Ok?)
            && (r.error == None ==> |r.ops| == 2 * |dataSource.value.items|))
      && (outputType == Some(JString("repeated")) && !(dataSource.Some? && dataSource.value.JArray?) ==>
            r == Warn(reg, NotAnArray(key)))
      && (outputType == Some(JString("single")) ==>
            && r.warnings == []
            && (r.error == None <==> OutputName(output, dataSource).Ok?)
            && (r.error == None ==>
                  var path := Text.PathJoin(env.outputDir, OutputName(output, dataSource).value);
                  r.ops == [MakeDirs(Dirname(path)), WriteFile(path, env.render(env.templates[key], dataSource.value, reg, env.helpers))]))
      && (outputType != Some(JString("repeated")) && outputType != Some(JString("single")) ==>
            r == Warn(reg, UnknownOutputType(outputType)))
  {
    if outputType == Some(JString("repeated")) && dataSource.Some? && dataSource.value.JArray? {
      InstancesRunSucceeds(env, reg, env.templates[key], dataSource.value.items, output);
      InstancesKeepPartials(env, reg, env.templates[key], dataSource.value.items, output);
      if forall k | 0 <= k < |dataSource.value.items| :: OutputName(output, Some(dataSource.value.items[k])).Ok? {
        InstancesRunWrites(env, reg, env.templates[key], dataSource.value.items, output);
      }
    }
  }

  /** One descriptor entry: a `null` entry fails; an entry naming no compiled
      template is skipped with one warning and nothing else; an entry whose
      partials cannot be iterated fails before anything is registered;
      otherwise its partials are registered first and cause no file change,
      so the files it makes are those of its output. */
  lemma EntryRunCases(env: Env, reg: map<string, Compiled>, entry: Json, data: Json)
    ensures var r := EntryRun(env, reg, entry, data);
      && (entry.JNull? ==> r == Failed(reg, "Cannot destructure 'templateEntry' as it is null."))
      && (!entry.JNull? && KeyText(Field(entry, "template")) !in env.templates ==>
            r == Warn(reg, SkippedTemplate(KeyText(Field(entry, "template")))))
      && (!entry.JNull? && KeyText(Field(entry, "template")) in env.templates && ListedPartials(entry).Err? ==>
            r == Failed(reg, ListedPartials(entry).error))
      && (!entry.JNull? && KeyText(Field(entry, "template")) in env.templates && ListedPartials(entry).Ok? ==>
            var p := PartialsRun(env, reg, ListedPartials(entry).value);
            var s := SourceRun(env, p.partials, KeyText(Field(entry, "template")), entry, data);
            && r.ops == s.ops && r.error == s.error && r.partials == s.partials
            && r.warnings == p.warnings + s.warnings)
  {
    if !entry.JNull? && KeyText(Field(entry, "template")) in env.templates && ListedPartials(entry).Ok? {
      PartialsRunEffect(env, reg, ListedPartials(entry).value);
    }
  }

  /** Processing the entries `a + b` is processing `a`, then, unless that
      failed, processing `b` with the partials `a` left registered. */
  lemma {:induction false} EntriesRunAppend(env: Env, reg: map<string, Compiled>, a: seq<Json>, b: seq<Json>, data: Json)
    ensures EntriesRun(env, reg, a + b, data) ==
      var x := EntriesRun(env, reg, a, data);
      if x.error.Some? then x else Then(x, EntriesRun(env, x.partials, b, data))
    decreases |a|
  {
    if a == [] {
      assert a + b == b;
      QuietThen(EntriesRun(env, reg, b, data));
    } else {
      assert (a + b)[0] == a[0];
      assert (a + b)[1..] == a[1..] + b;
      var first := EntryRun(env, reg, a[0], data);
      if first.error == None {
        EntriesRunAppend(env, first.partials, a[1..], b, data);
        var x := EntriesRun(env, first.partials, a[1..], data);
        if x.error == None {
          ThenAssoc(first, x, EntriesRun(env, x.partials, b, data));
        }
      }
    }
  }

  /** `generate` creates a missing output directory before anything else. */
  lemma GenerateCreatesOutputDirFirst(env: Env, reg: map<string, Compiled>, config: Json, data: Json)
    ensures var r := GenerateRun(env, reg, config, data, false);
      |r.ops| >= 1 && r.ops[0] == MakeDirs(env.outputDir)
  {
    var mk := OutputDirRun(env.outputDir, reg, false);
    assert mk.ops == [MakeDirs(env.outputDir)];
  }

  /** A descriptor whose `templates` is neither an array nor a string fails
      `generate` after no more than creating the output directory; nothing is
      logged and no partial is registered. */
  lemma GenerateNeedsTemplateList(env: Env, reg: map<string, Compiled>, config: Json, data: Json, outputExists: bool)
    requires !(Field(config, "templates").Some? && (Field(config, "templates").value.JArray? || Field(config, "templates").value.JString?))
    ensures var r := GenerateRun(env, reg, config, data, outputExists);
      && r.error == Some("this.config.templates is not iterable")
      && r.ops == (if outputExists then [] else [MakeDirs(env.outputDir)])
      && r.warnings == [] && r.partials == reg
  {
  }

  /** String entries name no template: each is skipped with a warning about
      template `undefined`, and nothing else happens. */
  lemma {:induction false} StringEntriesSkipped(env: Env, reg: map<string, Compiled>, entries: seq<Json>, data: Json)
    requires "undefined" !in env.templates
    requires forall i | 0 <= i < |entries| :: entries[i].JString?
    ensures EntriesRun(env, reg, entries, data) ==
      Effects([], seq(|entries|, i requires 0 <= i < |entries| => SkippedTemplate("undefined")), reg, None)
    decreases |entries|
  {
    if entries != [] {
      StringEntriesSkipped(env, reg, entries[1..], data);
      var rest := seq(|entries| - 1, i requires 0 <= i < |entries| - 1 => SkippedTemplate("undefined"));
      assert [SkippedTemplate("undefined")] + rest == seq(|entries|, i requires 0 <= i < |entries| => SkippedTemplate("undefined"));
    }
  }

  /** A string `templates` is walked character by character: when no
      template is called `undefined`, every character is skipped with a
      warning, and `generate` only creates the output directory. */
  lemma GenerateOverString(env: Env, reg: map<string, Compiled>, config: Json, data: Json, outputExists: bool)
    requires Field(config, "templates").Some? && Field(config, "templates").value.JString?
    requires "undefined" !in env.templates
    ensures var r := GenerateRun(env, reg, config, data, outputExists);
      && r.error == None && r.partials == reg
      && r.ops == (if outputExists then [] else [MakeDirs(env.outputDir)])
      && |r.warnings| == |Field(config, "templates").value.s|
      && forall i | 0 <= i < |r.warnings| :: r.warnings[i] == SkippedTemplate("undefined")
  {
    var chars := Characters(Field(config, "templates").value.s);
    StringEntriesSkipped(env, reg, chars, data);
  }

  /** A descriptor `loadConfig` accepts always has its entries processed:
      `generate` does what processing them does, after creating the output
      directory when it is missing. */
  lemma GenerateRunsEntries(env: Env, reg: map<string, Compiled>, config: Json, data: Json, outputExists: bool)
    requires CheckConfig(config).Ok?
    ensures var r := GenerateRun(env, reg, config, data, outputExists);
      && Field(config, "templates").Some? && Field(config, "templates").value.JArray?
      && var entries := EntriesRun(env, reg, Field(config, "templates").value.items, data);
      && r.ops == (if outputExists then [] else [MakeDirs(env.outputDir)]) + entries.ops
      && r.warnings == entries.warnings && r.partials == entries.partials && r.error == entries.error
  {
    AcceptedConfig(config);
  }
}
