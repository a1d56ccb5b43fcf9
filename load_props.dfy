/** The two loaders side by side: which source wins, which default file is
    read, how a file's name picks its parser, and where `OpenApiRouter`'s
    `__load_spec` and `OpenApi.__init__` agree. */
module LoadProps {
  import opened PyValue
  import opened PyStr
  import opened SpecSource
  import opened Router
  import opened Loader

  /** `raw_json` wins over every other argument. */
  lemma RawJsonWins(appDir: string, fp1: string, fp2: string, rawJson: string, ry1: string, ry2: string,
                    rd1: Value, rd2: Value, env: Env)
    requires rawJson != ""
    ensures LoadSource(appDir, fp1, rawJson, ry1, rd1, env) == LoadSource(appDir, fp2, rawJson, ry2, rd2, env)
    ensures var r := LoadSource(appDir, fp1, rawJson, ry1, rd1, env);
      && (r.Ok? <==> env.parseJson(rawJson).Ok?)
      && (r.Ok? ==> r.value == Loaded(None, env.parseJson(rawJson).value))
    ensures LoadDoc(fp1, rawJson, ry1, env) == env.parseJson(rawJson)
  {
  }

  /** Without `raw_json`, `raw_yaml` wins over the file and the dict. */
  lemma RawYamlWins(appDir: string, fp1: string, fp2: string, rawYaml: string, rd1: Value, rd2: Value, env: Env)
    requires rawYaml != ""
    ensures LoadSource(appDir, fp1, "", rawYaml, rd1, env) == LoadSource(appDir, fp2, "", rawYaml, rd2, env)
    ensures var r := LoadSource(appDir, fp1, "", rawYaml, rd1, env);
      && (r.Ok? <==> env.parseYaml(rawYaml).Ok?)
      && (r.Ok? ==> r.value == Loaded(None, env.parseYaml(rawYaml).value))
    ensures LoadDoc(fp1, "", rawYaml, env) == env.parseYaml(rawYaml)
  {
  }

  /** Without raw text, a given file wins over the dict, and its name picks
      the parser: a name ending in `json` is read as JSON, one ending in
      `yml` or `yaml` as YAML, any other name loads nothing. A missing file
      raises FileNotFoundError. */
  lemma FileDispatch(appDir: string, fp: string, rd1: Value, rd2: Value, env: Env)
    requires fp != ""
    ensures LoadSource(appDir, fp, "", "", rd1, env) == LoadSource(appDir, fp, "", "", rd2, env)
    ensures var r := LoadSource(appDir, fp, "", "", rd1, env);
      && (fp !in env.files ==> r == Err(FileNotFound(fp)))
      && (fp in env.files && EndsWith(fp, "json") ==>
            (r.Ok? <==> env.parseJson(env.files[fp]).Ok?) &&
            (r.Ok? ==> r.value == Loaded(Some(fp), env.parseJson(env.files[fp]).value)))
      && (fp in env.files && !EndsWith(fp, "json") && (EndsWith(fp, "yml") || EndsWith(fp, "yaml")) ==>
            (r.Ok? <==> env.parseYaml(env.files[fp]).Ok?) &&
            (r.Ok? ==> r.value == Loaded(Some(fp), env.parseYaml(env.files[fp]).value)))
      && (fp in env.files && !EndsWith(fp, "json") && !EndsWith(fp, "yml") && !EndsWith(fp, "yaml") ==>
            r == Err(AttributeError))
    ensures var d := LoadDoc(fp, "", "", env);
      && (fp !in env.files ==> d == Err(FileNotFound(fp)))
      && (fp in env.files && EndsWith(fp, "json") ==> d == env.parseJson(env.files[fp]))
      && (fp in env.files && !EndsWith(fp, "json") && (EndsWith(fp, "yml") || EndsWith(fp, "yaml")) ==>
            d == env.parseYaml(env.files[fp]))
      && (fp in env.files && !EndsWith(fp, "json") && !EndsWith(fp, "yml") && !EndsWith(fp, "yaml") ==>
            d == Err(SpecNotLoaded))
  {
  }

  /** A truthy dict is the document when nothing else is given. */
  lemma RawDictUsed(appDir: string, rawDict: Value, env: Env)
    requires Truthy(rawDict)
    ensures LoadSource(appDir, "", "", "", rawDict, env) == Ok(Loaded(None, rawDict))
  {
  }

  /** With no source, `openapi-spec.yml` in the app directory is read if it
      exists, else `openapi-spec.yaml`; with neither, FileNotFoundError names
      the directory. An empty dict counts as no source. */
  lemma DefaultFileChosen(appDir: string, rawDict: Value, env: Env)
    requires !Truthy(rawDict)
    ensures var r := LoadSource(appDir, "", "", "", rawDict, env);
      var yml := appDir + "openapi-spec.yml";
      var yaml := appDir + "openapi-spec.yaml";
      && (yml in env.files ==> r == LoadSource(appDir, yml, "", "", Null, env))
      && (yml !in env.files && yaml in env.files ==> r == LoadSource(appDir, yaml, "", "", Null, env))
      && (yml !in env.files && yaml !in env.files ==> r == Err(NoSpecFile(appDir)))
  {
    var yml := appDir + "openapi-spec.yml";
    var yaml := appDir + "openapi-spec.yaml";
    assert yml != "" && yaml != "" by {
      assert |yml| > 0 && |yaml| > 0;
    }
  }

  /** The router's default files are looked up by bare name, in the same
      order; with neither, FileNotFoundError. */
  lemma RouterDefaultFile(env: Env)
    ensures var d := LoadDoc("", "", "", env);
      && ("openapi-spec.yml" in env.files ==> d == LoadDoc("openapi-spec.yml", "", "", env))
      && ("openapi-spec.yml" !in env.files && "openapi-spec.yaml" in env.files ==>
            d == LoadDoc("openapi-spec.yaml", "", "", env))
      && ("openapi-spec.yml" !in env.files && "openapi-spec.yaml" !in env.files ==> d == Err(NoSpecFile("")))
  {
  }

  /** `__load_spec` and `OpenApi.__init__` called from the working directory
      without a dict load the same document, except that a file with an
      unknown extension is UnboundLocalError in the one and AttributeError
      in the other; and they derive the same base path. */
  lemma LoadersAgree(fp: string, rawJson: string, rawYaml: string, env: Env)
    ensures var d := LoadDoc(fp, rawJson, rawYaml, env);
      var r := LoadSource("", fp, rawJson, rawYaml, Null, env);
      && (d.Ok? <==> r.Ok?)
      && (d.Ok? ==> r.value.spec == d.value)
      && (d.Err? ==> r.error == d.error || (d.error == SpecNotLoaded && r.error == AttributeError))
    ensures var s := LoadSpecOf(fp, rawJson, rawYaml, env);
      var o := Opened("", fp, rawJson, rawYaml, Null, env);
      && (s.Ok? <==> o.Ok?)
      && (s.Ok? ==> s.value.0 == o.value.0.spec && s.value.1 == o.value.1)
  {
    assert "" + "openapi-spec.yml" == "openapi-spec.yml";
    assert "" + "openapi-spec.yaml" == "openapi-spec.yaml";
  }
}
