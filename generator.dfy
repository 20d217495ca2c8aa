/** The SPA generator object: `this.props`, set by `prompting()` and updated in
    place by the base helpers, and the trace of what the run has done so far.
    Each method is proved against the plan functions of `DnnBase` and `SpaPlan`. */
module SpaGenerator {
  import opened Wrappers
  import opened JsonValue
  import opened Effects
  import opened DnnBase
  import opened SpaPlan

  /** Appending three sections one after the other appends their concatenation. */
  lemma AppendSections(t: seq<Effect>, a: seq<Effect>, b: seq<Effect>, c: seq<Effect>)
    ensures t + a + b + c == t + (a + (b + c))
  {
  }

  class Generator {
    /** `this.props`: undefined until `prompting()` has resolved. */
    var props: Option<Props>
    /** Every file operation and command of the run, in order. */
    var trace: seq<Effect>
    /** The `--noinstall` option. */
    const noinstall: bool

    constructor (noinstall: bool)
      ensures props == None && trace == [] && this.noinstall == noinstall
    {
      props := None;
      trace := [];
      this.noinstall := noinstall;
    }

    /** Record one effect. */
    method Emit(e: Effect)
      modifies this
      ensures trace == old(trace) + [e] && props == old(props)
    {
      trace := trace + [e];
    }

    /** One `copyTpl` per row of `table`, in order. */
    method EmitCopies(moduleName: string, table: seq<(string, string)>)
      modifies this
      ensures trace == old(trace) + Copies(moduleName, table) && props == old(props)
    {
      ghost var copies := Copies(moduleName, table);
      var i := 0;
      while i < |table|
        invariant 0 <= i <= |table|
        invariant trace == old(trace) + copies[..i] && props == old(props)
      {
        Emit(CopyTpl(table[i].0, Into(moduleName, table[i].1)));
        assert copies[..i + 1] == copies[..i] + [copies[i]];
        i := i + 1;
      }
      assert copies[..|table|] == copies;
    }

    // -------------------------------------------------------------------------
    // prompting()

    /** `prompting()`: probe MSBuild, then derive the props from the answers and
        store them; when the `then` callback throws, `this.props` stays as it was. */
    method Prompting(optionsCompany: Option<string>, answers: Answers, pascalCase: string -> string,
                     uuid: string, probe: string -> Probe)
      returns (msBuildVersion: string, r: Result<Props, PromptError>)
      modifies this
      ensures DetectedVersion(probe, msBuildVersion)
      ensures r == PromptingThen(optionsCompany, answers, pascalCase, uuid, msBuildVersion)
      ensures r.Ok? ==> props == Some(r.value)
      ensures r.Err? ==> props == old(props)
      ensures trace == old(trace)
    {
      msBuildVersion := GetMsBuildVersion(probe);
      r := PromptingThen(optionsCompany, answers, pascalCase, uuid, msBuildVersion);
      if r.Ok? {
        props := Some(r.value);
      }
    }

    // -------------------------------------------------------------------------
    // DnnGeneratorBase helpers

    /** `_getNamespace()`: the dotted namespace; as a side effect the extension
        name defaults to the module name. */
    method GetNamespace() returns (namespace: string)
      requires props.Some?
      modifies this
      ensures namespace == DnnBase.GetNamespace(old(props.value))
      ensures props == Some(DefaultExtensionName(old(props.value))) && trace == old(trace)
    {
      var p := props.value;
      namespace := p.namespace;
      if p.extensionType.Some? && p.extensionType.value != "" {
        namespace := namespace + "." + p.extensionType.value;
      }
      if p.extensionName.None? {
        props := Some(p.(extensionName := Some(p.moduleName)));
      }
      namespace := namespace + "." + props.value.extensionName.value;
    }

    /** `_createSolutionFromTemplate()`: `dotnet new sln` named after the namespace. */
    method CreateSolutionFromTemplate()
      requires props.Some?
      modifies this
      ensures props == Some(DefaultExtensionName(old(props.value)))
      ensures trace == old(trace) + [CreateSolutionCommand(props.value)]
    {
      var namespace := GetNamespace();
      Emit(Spawn("dotnet", ["new", "sln", "-n", namespace, "-o", props.value.moduleName], None));
    }

    /** `_writeSolution()`: create the solution unless its file exists. */
    method WriteSolution(fileExists: string -> bool)
      requires props.Some?
      modifies this
      ensures props == Some(DefaultExtensionName(old(props.value)))
      ensures trace == old(trace) + WriteSolutionEffects(old(props.value), fileExists)
    {
      var namespace := GetNamespace();
      var slnFileName := namespace + ".sln";
      if !fileExists(slnFileName) {
        CreateSolutionFromTemplate();
        DefaultExtensionNameIdempotent(old(props.value));
      }
    }

    /** `_restoreSolution()`: `dotnet restore` inside the extension's directory. */
    method RestoreSolution()
      requires props.Some?
      modifies this
      ensures props == Some(DefaultExtensionName(old(props.value)))
      ensures trace == old(trace) + [RestoreCommand(old(props.value))]
    {
      // `_getNamespace()` has already defaulted the extension name, so the
      // helper's own `extensionName == undefined` test never fires here.
      var namespace := GetNamespace();
      Emit(Spawn("dotnet", ["restore", namespace + ".csproj"], Some(props.value.extensionName.value)));
    }

    /** `_addProjectToSolution()`: add the extension's project to the solution one level up. */
    method AddProjectToSolution()
      requires props.Some?
      modifies this
      ensures props == Some(DefaultExtensionName(old(props.value)))
      ensures trace == old(trace) + [AddProjectCommand(old(props.value))]
    {
      // `_getNamespace()` has already defaulted the extension name, so the
      // helper's own `extensionName == undefined` test never fires here.
      var namespace := GetNamespace();
      Emit(Spawn("dotnet", ["sln", "..", "add", props.value.extensionName.value + "/" + namespace + ".csproj"], None));
    }

    /** `_installDependencies()`: unless `noinstall`, one package-manager install
        in the extension's directory; `which` is what the yarn lookup in
        `_hasYarn()` returns. */
    method InstallDependencies(which: WhichResult)
      requires props.Some?
      modifies this
      ensures props == (if noinstall then old(props) else Some(DefaultExtensionName(old(props.value))))
      ensures trace == old(trace) + InstallDependenciesEffects(old(props.value), noinstall, which)
    {
      if !noinstall {
        var hasYarn := HasYarn(which);
        if props.value.extensionName.None? {
          props := Some(props.value.(extensionName := Some(props.value.moduleName)));
        }
        var path := props.value.extensionName.value;
        if hasYarn {
          Emit(Spawn("yarn", ["install"], Some(path)));
        } else {
          Emit(Spawn("npm", ["install"], Some(path)));
        }
      }
    }

    /** `_createYarnWorkspace()`: when `_hasYarn()` holds, merge the workspace
        `package.json` and `lerna.json` at the destination root. */
    method CreateYarnWorkspace(which: WhichResult)
      requires props.Some?
      modifies this
      ensures props == old(props)
      ensures trace == old(trace) + YarnWorkspaceEffects(old(props.value), which)
    {
      if !HasYarn(which) {
        return;
      }
      Emit(ExtendJson("package.json", WorkspaceJson(props.value)));
      Emit(ExtendJson("lerna.json", LernaJson(props.value)));
    }

    // -------------------------------------------------------------------------
    // writing()

    /** The script language's config merge and linter copy; returns the
        `devDependencies` with the language's packages spread in. */
    method WriteLanguageConfig(spaPath: string, langType: Option<string>, moduleName: string)
      returns (devDependencies: map<string, Json>)
      modifies this
      ensures trace == old(trace) + LanguageEffects(spaPath, moduleName, langType) && props == old(props)
      ensures devDependencies == ReactDevDependencies(langType)
    {
      devDependencies := ReactBaseDevDependencies();
      if langType == Some("jsx") {
        Emit(ExtendJson(Into(moduleName, "jsconfig.json"), JsConfig()));
        Emit(CopyTpl(spaPath + "/.eslintrc.js", Into(moduleName, ".eslintrc.js")));
        devDependencies := Spread(devDependencies, JsxDevDependencies());
      } else {
        Emit(ExtendJson(Into(moduleName, "tsconfig.json"), TsConfig()));
        Emit(CopyTpl(spaPath + "/tslint.json", Into(moduleName, "tslint.json")));
        devDependencies := Spread(devDependencies, TsxDevDependencies());
      }
    }

    /** The React config merges: `.babelrc`, the language's config and linter
        file, then `package.json` with the language's packages. */
    method WriteReactConfig(spaPath: string, langType: Option<string>, moduleName: string)
      modifies this
      ensures trace == old(trace) + ReactConfigEffects(spaPath, langType, moduleName) && props == old(props)
    {
      Emit(ExtendJson(Into(moduleName, ".babelrc"), BabelRc()));
      var devDependencies := WriteLanguageConfig(spaPath, langType, moduleName);
      Emit(ExtendJson(Into(moduleName, "package.json"), ReactPackageJson(devDependencies)));
    }

    /** `.vscode/launch.json`: append the debugger entry to the parsed file, or
        create the file with it; `launchJson` is the parsed file, if it exists. */
    method WriteLaunchJson(launchJson: Option<Json>, moduleName: string)
      modifies this
      ensures trace == old(trace) + LaunchEffects(launchJson, moduleName) && props == old(props)
    {
      var entry := LaunchConfig(moduleName);
      if launchJson.Some? {
        var updated := AppendConfiguration(launchJson.value, entry);
        if updated.Some? {
          Emit(WriteJson(LaunchJsonPath, updated.value));
        }
      } else {
        Emit(ExtendJson(LaunchJsonPath, NewLaunchJson(entry)));
      }
    }

    method WriteReact(spaPath: string, langType: Option<string>, moduleName: string, fullNamespace: string,
                      launchJson: Option<Json>)
      modifies this
      ensures trace == old(trace) + ReactPlan(spaPath, langType, moduleName, fullNamespace, launchJson)
      ensures props == old(props)
    {
      ghost var t0 := trace;
      EmitCopies(moduleName, ReactCopies(spaPath, moduleName, fullNamespace));
      WriteReactConfig(spaPath, langType, moduleName);
      WriteLaunchJson(launchJson, moduleName);
      AppendSections(t0, Copies(moduleName, ReactCopies(spaPath, moduleName, fullNamespace)),
                     ReactConfigEffects(spaPath, langType, moduleName), LaunchEffects(launchJson, moduleName));
    }

    method WriteAngular(spaPath: string, moduleName: string, fullNamespace: string)
      modifies this
      ensures trace == old(trace) + AngularPlan(spaPath, moduleName, fullNamespace) && props == old(props)
    {
      EmitCopies(moduleName, AngularCopies(spaPath, moduleName, fullNamespace));
      Emit(ExtendJson(Into(moduleName, "package.json"), AngularPackageJson(moduleName)));
    }

    /** `writing()`: the copy plan of the chosen framework. */
    method Writing(launchJson: Option<Json>)
      requires props.Some?
      modifies this
      ensures props == old(props)
      ensures trace == old(trace) +
        WritingPlan(props.value.spaType, props.value.langType, props.value.moduleName,
                    props.value.fullNamespace, launchJson)
    {
      var spaType, langType := props.value.spaType, props.value.langType;
      var moduleName, fullNamespace := props.value.moduleName, props.value.fullNamespace;
      var spaPath := SpaPath(spaType, langType);
      if spaType == Some("ReactJS") {
        WriteReact(spaPath, langType, moduleName, fullNamespace, launchJson);
        WritingPlanReact(langType, moduleName, fullNamespace, launchJson);
      } else if spaType == Some("VueJS") {
        EmitCopies(moduleName, VueCopies(spaPath, moduleName, fullNamespace));
        WritingPlanVue(langType, moduleName, fullNamespace, launchJson);
      } else if spaType == Some("Angular") {
        WriteAngular(spaPath, moduleName, fullNamespace);
        WritingPlanAngular(langType, moduleName, fullNamespace, launchJson);
      }
    }

    // -------------------------------------------------------------------------
    // install()

    /** `install()`: write the solution, restore, add the project, install dependencies. */
    method Install(fileExists: string -> bool, which: WhichResult)
      requires props.Some?
      modifies this
      ensures props == Some(DefaultExtensionName(old(props.value)))
      ensures trace == old(trace) + InstallPlan(old(props.value), fileExists, noinstall, which)
    {
      ghost var p := props.value;
      ghost var q := DefaultExtensionName(p);
      DefaultExtensionNameIdempotent(p);
      WriteSolution(fileExists);
      RestoreSolution();
      AddProjectToSolution();
      InstallDependencies(which);
      assert RestoreCommand(q) == RestoreCommand(p) && AddProjectCommand(q) == AddProjectCommand(p);
    }
  }
}
