/** The SPA generator's decisions as values: the names derived in `prompting()`,
    the copy plan of `writing()` for each framework, the `package.json` and
    `.vscode/launch.json` merges, and the command sequence of `install()`. */
module SpaPlan {
  import opened Wrappers
  import opened JsText
  import opened JsonValue
  import opened Effects
  import opened DnnBase

  // ---------------------------------------------------------------------------
  // prompting(): name derivation

  /** The suffix that asks for a name to be used literally instead of pascal-cased. */
  const OverrideFlag := " -f"

  /** A derived name: with the override flag at the end, the raw text with the
      FIRST occurrence of the flag removed (`replace` with a string pattern);
      otherwise the pascal-cased raw text. */
  function DeriveName(raw: string, pascalCase: string -> string): (r: string)
    ensures !EndsWith(raw, OverrideFlag) ==> r == pascalCase(raw)
    ensures EndsWith(raw, OverrideFlag) ==> |r| == |raw| - |OverrideFlag|
    ensures forall i :: EndsWith(raw, OverrideFlag) && FirstOccurrence(raw, OverrideFlag, i) ==>
              r == raw[..i] + raw[i + |OverrideFlag|..]
  {
    if EndsWith(raw, OverrideFlag) then
      RemoveFlag(raw);
      Replace(raw, OverrideFlag, "")
    else pascalCase(raw)
  }

  /** Replacing the flag by nothing cuts out its leftmost occurrence. */
  lemma RemoveFlag(raw: string)
    requires EndsWith(raw, OverrideFlag)
    ensures |Replace(raw, OverrideFlag, "")| == |raw| - |OverrideFlag|
    ensures forall i :: FirstOccurrence(raw, OverrideFlag, i) ==>
              Replace(raw, OverrideFlag, "") == raw[..i] + raw[i + |OverrideFlag|..]
  {
    FirstOccurrenceExists(raw);
    var i0 := IndexOf(raw, OverrideFlag).value;
    var r := Replace(raw, OverrideFlag, "");
    assert r == raw[..i0] + "" + raw[i0 + 3..];
    assert raw[..i0] + "" == raw[..i0];
    forall i | FirstOccurrence(raw, OverrideFlag, i) ensures r == raw[..i] + raw[i + 3..] {
      FirstOccurrenceUnique(raw, OverrideFlag, i, i0);
    }
  }

  /** A name ending in the flag has a leftmost occurrence of it. */
  lemma FirstOccurrenceExists(raw: string)
    requires EndsWith(raw, OverrideFlag)
    ensures exists i :: FirstOccurrence(raw, OverrideFlag, i)
  {
    assert OccursAt(raw, OverrideFlag, |raw| - 3);
    var r := IndexOf(raw, OverrideFlag);
    assert r.Some?;
  }

  /** When the flag occurs only at the end, the derived name is exactly the raw
      text without it, case preserved, and the case helper is never consulted. */
  lemma OverrideStripsSuffix(raw: string, pascalCase: string -> string)
    requires EndsWith(raw, OverrideFlag)
    requires forall j :: OccursAt(raw, OverrideFlag, j) ==> j == |raw| - |OverrideFlag|
    ensures DeriveName(raw, pascalCase) == raw[..|raw| - |OverrideFlag|]
  {
    var n := |raw| - 3;
    assert OccursAt(raw, OverrideFlag, n);
    assert FirstOccurrence(raw, OverrideFlag, n);
    assert raw[n + 3..] == [];
  }

  /** The flag cannot overlap itself: two distinct occurrences are at least its length apart. */
  lemma FlagOccurrencesDisjoint(raw: string, i: int, n: int)
    requires OccursAt(raw, OverrideFlag, i) && OccursAt(raw, OverrideFlag, n) && i < n
    ensures i + |OverrideFlag| <= n
  {
    assert raw[i..i + 3] == OverrideFlag && raw[n..n + 3] == OverrideFlag;
    assert raw[i] == ' ' && raw[i + 1] == '-' && raw[i + 2] == 'f';
    assert raw[n] == ' ' && raw[n + 1] == '-';
  }

  /** Removing three characters before the last three leaves those last three in place. */
  lemma RemovalKeepsSuffix(raw: string, i: int)
    requires 0 <= i && i + 6 <= |raw|
    ensures var r := raw[..i] + raw[i + 3..]; |r| == |raw| - 3 && r[|r| - 3..] == raw[|raw| - 3..]
  {
    var r := raw[..i] + raw[i + 3..];
    forall j | |r| - 3 <= j < |r| ensures r[j] == raw[j + 3] {
      assert r[j] == raw[i + 3..][j - i];
    }
  }

  /** When the flag also occurs earlier, it is that earlier occurrence which is
      removed: the derived name still ends with the flag. */
  lemma OverrideRemovesFirstOccurrence(raw: string, pascalCase: string -> string, k: int)
    requires EndsWith(raw, OverrideFlag)
    requires OccursAt(raw, OverrideFlag, k) && k < |raw| - |OverrideFlag|
    ensures EndsWith(DeriveName(raw, pascalCase), OverrideFlag)
  {
    var n := |raw| - 3;
    assert OccursAt(raw, OverrideFlag, n);
    var i := IndexOf(raw, OverrideFlag).value;
    assert i <= k;
    FlagOccurrencesDisjoint(raw, i, n);
    RemovalKeepsSuffix(raw, i);
    assert DeriveName(raw, pascalCase) == raw[..i] + raw[i + 3..];
  }

  /** Example: "Acme Corp -f" gives the namespace "Acme Corp". */
  lemma OverrideExample(pascalCase: string -> string)
    ensures DeriveName("Acme Corp -f", pascalCase) == "Acme Corp"
  {
    var raw := "Acme Corp -f";
    forall j | OccursAt(raw, OverrideFlag, j) ensures j == |raw| - 3 {
      assert raw[j..j + 3] == OverrideFlag;
      assert raw[j] == raw[j..j + 3][0] == ' ';
      assert raw[j + 1] == raw[j..j + 3][1] == '-';
    }
    OverrideStripsSuffix(raw, pascalCase);
  }

  /** The prompt answers. A question that was not asked leaves its answer undefined. */
  datatype Answers = Answers(
    spaType: Option<string>,
    langType: Option<string>,
    company: Option<string>,
    name: Option<string>,
    description: Option<string>)

  /** The TypeError thrown by calling `endsWith` on an undefined value. */
  datatype PromptError = CompanyUndefined | NameUndefined

  /** The `then` callback of `prompting()`. The namespace comes from the
      `company` COMMAND-LINE OPTION (the prompted company is never read); the
      module name from the prompted `name`. */
  function PromptingThen(
    optionsCompany: Option<string>, answers: Answers, pascalCase: string -> string,
    uuid: string, msBuildVersion: string): (r: Result<Props, PromptError>)
    ensures optionsCompany.None? <==> r == Err(CompanyUndefined)
    ensures optionsCompany.Some? && answers.name.None? <==> r == Err(NameUndefined)
    ensures r.Ok? ==>
      var p := r.value;
      && p.namespace == DeriveName(optionsCompany.value, pascalCase)
      && p.moduleName == DeriveName(answers.name.value, pascalCase)
      && p.extensionType == Some("Modules")
      && p.extensionName == None
      && p.fullNamespace == p.namespace + "." + "Modules" + "." + p.moduleName
      && p.guid == GenerateGuid(uuid)
      && p.msBuildVersion == msBuildVersion
      && p.spaType == answers.spaType && p.langType == answers.langType
      && p.name == answers.name && p.description == answers.description
  {
    if optionsCompany.None? then Err(CompanyUndefined)
    else if answers.name.None? then Err(NameUndefined)
    else
      var namespace := DeriveName(optionsCompany.value, pascalCase);
      var moduleName := DeriveName(answers.name.value, pascalCase);
      var extensionType := "Modules";
      Ok(Props(
        answers.spaType, answers.langType, answers.name, answers.description,
        namespace, moduleName, Some(extensionType), None,
        namespace + "." + extensionType + "." + moduleName,
        GenerateGuid(uuid), msBuildVersion))
  }

  /** The prompted company answer has no influence on the derived props. */
  lemma PromptedCompanyIgnored(
    optionsCompany: Option<string>, answers: Answers, other: Option<string>,
    pascalCase: string -> string, uuid: string, msBuildVersion: string)
    ensures PromptingThen(optionsCompany, answers, pascalCase, uuid, msBuildVersion)
         == PromptingThen(optionsCompany, answers.(company := other), pascalCase, uuid, msBuildVersion)
  {
  }

  /** `_getNamespace()` on freshly derived props is the full namespace, before
      and after it defaults the extension name to the module name. */
  lemma NamespaceOfPromptedProps(
    optionsCompany: Option<string>, answers: Answers, pascalCase: string -> string,
    uuid: string, msBuildVersion: string)
    requires PromptingThen(optionsCompany, answers, pascalCase, uuid, msBuildVersion).Ok?
    ensures var p := PromptingThen(optionsCompany, answers, pascalCase, uuid, msBuildVersion).value;
      && GetNamespace(p) == p.fullNamespace
      && GetNamespace(DefaultExtensionName(p)) == p.fullNamespace
      && ExtensionName(p) == p.moduleName
  {
  }

  // ---------------------------------------------------------------------------
  // writing(): the copy plan

  /** `spaPath`: "ReactJS/<langType>" for React, "<spaType>/" for anything else. */
  function SpaPath(spaType: Option<string>, langType: Option<string>): (r: string)
    ensures spaType == Some("ReactJS") && langType.Some? ==> r == "ReactJS/" + langType.value
    ensures spaType == Some("ReactJS") && langType.None? ==> r == "ReactJS/undefined"
    ensures spaType.Some? && spaType != Some("ReactJS") ==> r == spaType.value + "/"
    ensures spaType.None? ==> r == "undefined/"
  {
    if spaType == Some("ReactJS") then "ReactJS/" + Interpolate(langType)
    else Interpolate(spaType) + "/"
  }

  /** `moduleName + '/' + rel`: a destination inside the module's directory. */
  function Into(moduleName: string, rel: string): (r: string)
    ensures StartsWith(r, moduleName + "/")
  {
    var r := moduleName + "/" + rel;
    assert r[..|moduleName| + 1] == moduleName + "/";
    r
  }

  /** One `copyTpl` per (template, destination inside the module) row, in order. */
  function Copies(moduleName: string, table: seq<(string, string)>): (r: seq<Effect>)
    ensures |r| == |table|
    ensures forall i :: 0 <= i < |table| ==> r[i] == CopyTpl(table[i].0, Into(moduleName, table[i].1))
  {
    seq(|table|, i requires 0 <= i < |table| => CopyTpl(table[i].0, Into(moduleName, table[i].1)))
  }

  /** The React copies, in source order. */
  function ReactCopies(spaPath: string, moduleName: string, fullNamespace: string): seq<(string, string)> {
    [ ("../../common/build/*.*", "_BuildScripts"),
      ("common/_BuildScripts/**", "_BuildScripts/"),
      (spaPath + "/_BuildScripts/**", "_BuildScripts/"),
      ("../../common/csproj/Providers/**", "Providers"),
      ("../../common/csproj/NuGet.config", "NuGet.config"),
      ("common/App_LocalResources/**", "App_LocalResources/"),
      ("common/Components/**", "Components/"),
      ("common/Controllers/**", "Controllers/"),
      ("common/Data/**", "Data/"),
      ("common/ViewModels/**", "ViewModels/"),
      ("common/Providers/**", "Providers/"),
      ("../../common/src/**", "src/"),
      ("common/src/**", "src/"),
      (spaPath + "/**/*.*", "."),
      ("common/RouteConfig.cs", "RouteConfig.cs"),
      ("common/Constants.cs", "Constants.cs"),
      ("common/manifest.dnn", moduleName + ".dnn"),
      ("common/symbols.dnn", moduleName + "_Symbols.dnn"),
      ("common/License.txt", "License.txt"),
      ("common/ReleaseNotes.txt", "ReleaseNotes.txt"),
      ("ReactJS/common/Module.csproj", fullNamespace + ".csproj"),
      ("ReactJS/common/Module.build", "Module.build"),
      ("common/Data/ModuleContext.cs", "Data/" + moduleName + "Context.cs"),
      ("common/package.json", "package.json"),
      ("../../common/branding/Images/**", "Images") ]
  }

  /** The Vue copies, in source order (`spaPath` is "VueJS/"). */
  function VueCopies(spaPath: string, moduleName: string, fullNamespace: string): seq<(string, string)> {
    [ (spaPath + "Module.csproj", fullNamespace + ".csproj"),
      (spaPath + "Module.dnn", moduleName + ".dnn"),
      (spaPath + "symbols.dnn", moduleName + "_Symbols.dnn"),
      (spaPath + "Data/ModuleContext.cs", "Data/" + moduleName + "Context.cs"),
      (spaPath + "common/**", "."),
      ("../../common/branding/Images/**", "Images") ]
  }

  /** The Angular copies, in source order (`spaPath` is "Angular/"). */
  function AngularCopies(spaPath: string, moduleName: string, fullNamespace: string): seq<(string, string)> {
    [ ("common/package.json", "package.json"),
      ("../../common/branding/Images/**", "Images"),
      ("common/Controllers/**", "Controllers"),
      ("common/License.txt", "License.txt"),
      ("common/ReleaseNotes.txt", "ReleaseNotes.txt"),
      ("common/Components/**", "Components/."),
      ("common/ViewModels/**", "ViewModels/."),
      ("common/Constants.cs", "Constants.cs"),
      ("common/Data/Item.cs", "Data/Item.cs"),
      ("common/Data/ModuleContext.cs", "Data/" + moduleName + "Context.cs"),
      ("common/_BuildScripts/**", "_BuildScripts"),
      ("common/src/Resources/**", "src/Resources/."),
      ("common/src/Settings.html", "src/Settings.html"),
      ("common/App_LocalResources/**", "App_LocalResources"),
      ("common/Providers/**", "Providers"),
      ("common/manifest.dnn", moduleName + ".dnn"),
      ("common/symbols.dnn", moduleName + "_Symbols.dnn"),
      ("common/RouteConfig.cs", "RouteConfig.cs"),
      (spaPath + "/webpack.config.js", "webpack.config.js"),
      (spaPath + "/Module.csproj", fullNamespace + ".csproj"),
      (spaPath + "/src/**", "src/."),
      (spaPath + "/Module.build", "Module.build"),
      (spaPath + "/angular.json", "angular.json"),
      (spaPath + "/tsconfig.app.json", "tsconfig.app.json"),
      (spaPath + "/tsconfig.json", "tsconfig.json"),
      (spaPath + "/tsconfig.spec.json", "tsconfig.spec.json") ]
  }

  // ---------------------------------------------------------------------------
  // writing(): package.json for React

  function ReactBaseDevDependencies(): map<string, Json> {
    map[
      "@babel/plugin-proposal-object-rest-spread" := JStr("^7.20.7"),
      "@babel/plugin-transform-object-assign" := JStr("^7.22.5"),
      "@babel/core" := JStr("^7.22.5"),
      "@babel/preset-env" := JStr("^7.22.5"),
      "@babel/preset-react" := JStr("^7.22.5"),
      "archiver" := JStr("^3.0.0"),
      "babel-loader" := JStr("^9.1.2"),
      "browser-sync" := JStr("^2.26.3"),
      "babel-plugin-transform-react-remove-prop-types" := JStr("^0.4.24"),
      "chokidar" := JStr("^3.5.3"),
      "concurrently" := JStr("^8.2.0"),
      "copy-webpack-plugin" := JStr("^11.0.0"),
      "css-loader" := JStr("^6.8.1"),
      "file-loader" := JStr("^6.2.0"),
      "dotenv" := JStr("^6.2.0"),
      "fs-extra" := JStr("^7.0.1"),
      "html-webpack-plugin" := JStr("^5.5.1"),
      "marked" := JStr("^4.3.0"),
      "sass" := JStr("^1.63.2"),
      "sass-loader" := JStr("^13.3.1"),
      "style-loader" := JStr("^3.3.3"),
      "webpack" := JStr("^5.86.0"),
      "webpack-cli" := JStr("^5.1.4"),
      "webpack-dev-server" := JStr("^4.15.0"),
      "@testing-library/dom" := JStr("^7.21.4")]
  }

  function ReactDependencies(): map<string, Json> {
    map[
      "@testing-library/jest-dom" := JStr("^5.16.5"),
      "@testing-library/react" := JStr("^13.4.0"),
      "@testing-library/user-event" := JStr("^13.5.0"),
      "react" := JStr("^18.2.0"),
      "react-dom" := JStr("^18.2.0"),
      "web-vitals" := JStr("^2.1.4")]
  }

  /** The linter packages added for plain JavaScript (jsx). */
  function JsxDevDependencies(): map<string, Json> {
    map["eslint" := JStr("^8.42.0"), "eslint-plugin-react" := JStr("^7.32.2")]
  }

  /** The compiler packages added for TypeScript (any other language). */
  function TsxDevDependencies(): map<string, Json> {
    map[
      "@types/react" := JStr("^18.2.9"),
      "@types/react-dom" := JStr("^18.2.4"),
      "ts-loader" := JStr("^9.4.3"),
      "typescript" := JStr("^5.1.3")]
  }

  /** The packages the script language adds: linters for plain JavaScript
      (jsx), the compiler and typings for anything else. */
  function LanguagePackages(langType: Option<string>): (extra: map<string, Json>)
    ensures langType == Some("jsx") ==> extra.Keys == {"eslint", "eslint-plugin-react"}
    ensures langType != Some("jsx") ==> extra.Keys == {"@types/react", "@types/react-dom", "ts-loader", "typescript"}
  {
    if langType == Some("jsx") then JsxDevDependencies() else TsxDevDependencies()
  }

  /** `devDependencies` after the language-dependent spread. */
  function ReactDevDependencies(langType: Option<string>): map<string, Json> {
    Spread(ReactBaseDevDependencies(), LanguagePackages(langType))
  }

  /** Neither language's packages is already a base package, so the spread only adds keys. */
  lemma LanguagePackagesAreNew()
    ensures forall langType :: forall k :: k in LanguagePackages(langType) ==> k !in ReactBaseDevDependencies()
  {
    EslintIsNew();
    EslintReactIsNew();
    TypesReactIsNew();
    TypesReactDomIsNew();
    TsLoaderIsNew();
    TypeScriptIsNew();
  }

  // One fact per added package keeps each string comparison against the base list small.
  lemma EslintIsNew() ensures "eslint" !in ReactBaseDevDependencies() {}
  lemma EslintReactIsNew() ensures "eslint-plugin-react" !in ReactBaseDevDependencies() {}
  lemma TypesReactIsNew() ensures "@types/react" !in ReactBaseDevDependencies() {}
  lemma TypesReactDomIsNew() ensures "@types/react-dom" !in ReactBaseDevDependencies() {}
  lemma TsLoaderIsNew() ensures "ts-loader" !in ReactBaseDevDependencies() {}
  lemma TypeScriptIsNew() ensures "typescript" !in ReactBaseDevDependencies() {}

  function ReactPackageJson(devDependencies: map<string, Json>): Json {
    JObj(map["devDependencies" := JObj(devDependencies), "dependencies" := JObj(ReactDependencies())])
  }

  /** The config file merge and linter copy chosen by the script language. */
  function LanguageEffects(spaPath: string, moduleName: string, langType: Option<string>): seq<Effect> {
    if langType == Some("jsx") then
      [ ExtendJson(Into(moduleName, "jsconfig.json"), JsConfig()),
        CopyTpl(spaPath + "/.eslintrc.js", Into(moduleName, ".eslintrc.js")) ]
    else
      [ ExtendJson(Into(moduleName, "tsconfig.json"), TsConfig()),
        CopyTpl(spaPath + "/tslint.json", Into(moduleName, "tslint.json")) ]
  }

  // ---------------------------------------------------------------------------
  // writing(): .vscode/launch.json for React

  const LaunchJsonPath := ".vscode/launch.json"

  /** The Chrome debugger entry for the module. */
  function LaunchConfig(moduleName: string): Json {
    JObj(map[
      "type" := JStr("chrome"),
      "request" := JStr("launch"),
      "name" := JStr("Launch Chrome against " + moduleName),
      "url" := JStr("http://localhost:3000"),
      "webRoot" := JStr("${workspaceRoot}/" + moduleName),
      "sourceMaps" := JBool(true),
      "trace" := JBool(true)])
  }

  /** `json.configurations.push(entry)` on the parsed file: defined only when
      `configurations` is an array (otherwise the call throws); every other key
      is kept and the existing entries keep their order, with `entry` last. */
  function AppendConfiguration(json: Json, entry: Json): (r: Option<Json>)
    ensures r.Some? <==> json.JObj? && "configurations" in json.fields && json.fields["configurations"].JArr?
    ensures r.Some? ==>
      && r.value.JObj?
      && r.value.fields.Keys == json.fields.Keys
      && (forall k :: k in json.fields && k != "configurations" ==> r.value.fields[k] == json.fields[k])
      && r.value.fields["configurations"].JArr?
      && var old_ := json.fields["configurations"].items;
         var new_ := r.value.fields["configurations"].items;
         |new_| == |old_| + 1 && new_[..|old_|] == old_ && new_[|old_|] == entry
  {
    if json.JObj? && "configurations" in json.fields && json.fields["configurations"].JArr? then
      var items := json.fields["configurations"].items;
      Some(JObj(json.fields["configurations" := JArr(items + [entry])]))
    else None
  }

  /** A fresh `launch.json`: version "0.2.0" and the one entry. */
  function NewLaunchJson(entry: Json): Json {
    JObj(map["version" := JStr("0.2.0"), "configurations" := JArr([entry])])
  }

  /** The launch.json effect: rewrite the existing file with the entry appended,
      or merge a fresh file when there is none. `existing` is the parsed content. */
  function LaunchEffects(existing: Option<Json>, moduleName: string): seq<Effect> {
    var entry := LaunchConfig(moduleName);
    match existing
    case None => [ExtendJson(LaunchJsonPath, NewLaunchJson(entry))]
    case Some(json) =>
      match AppendConfiguration(json, entry)
      case Some(updated) => [WriteJson(LaunchJsonPath, updated)]
      case None => []
  }

  /** An existing launch.json keeps its configurations in order and gains exactly
      one entry at the end, named after the module; an absent one is created with
      version "0.2.0" and that entry alone. */
  lemma LaunchJsonAppendsOneEntry(existing: Option<Json>, moduleName: string)
    requires existing.Some? ==>
      existing.value.JObj? && "configurations" in existing.value.fields
      && existing.value.fields["configurations"].JArr?
    ensures var effects := LaunchEffects(existing, moduleName);
      && |effects| == 1
      && effects[0].WritesFile() && effects[0].Target() == LaunchJsonPath
      && var json := effects[0].value;
         json.JObj? && "configurations" in json.fields && json.fields["configurations"].JArr?
         && var entries := json.fields["configurations"].items;
            && |entries| >= 1
            && entries[|entries| - 1].fields["name"] == JStr("Launch Chrome against " + moduleName)
            && (existing.None? ==> effects[0].ExtendJson? && |entries| == 1 && json.fields["version"] == JStr("0.2.0"))
            && (existing.Some? ==>
                  var before := existing.value.fields["configurations"].items;
                  effects[0].WriteJson? && |entries| == |before| + 1 && entries[..|before|] == before)
  {
    var entry := LaunchConfig(moduleName);
    if existing.Some? {
      var updated := AppendConfiguration(existing.value, entry);
      assert updated.Some?;
    }
  }

  // ---------------------------------------------------------------------------
  // writing(): the whole plan

  /** The React config merges after the copies: `.babelrc`, the language's files, `package.json`. */
  function ReactConfigEffects(spaPath: string, langType: Option<string>, moduleName: string): seq<Effect> {
    [ExtendJson(Into(moduleName, ".babelrc"), BabelRc())]
    + LanguageEffects(spaPath, moduleName, langType)
    + [ExtendJson(Into(moduleName, "package.json"), ReactPackageJson(ReactDevDependencies(langType)))]
  }

  function ReactPlan(spaPath: string, langType: Option<string>, moduleName: string, fullNamespace: string,
                     launchJson: Option<Json>): seq<Effect> {
    Copies(moduleName, ReactCopies(spaPath, moduleName, fullNamespace))
    + (ReactConfigEffects(spaPath, langType, moduleName) + LaunchEffects(launchJson, moduleName))
  }

  function AngularPackageJson(moduleName: string): Json {
    JObj(map[
      "scripts" := JObj(map[
        "ng" := JStr("ng"),
        "angular-build" := JStr("ng build --output-hashing none"),
        "start" := JStr("ng run " + moduleName + ":builddev --watch")]),
      "dependencies" := JObj(map[
        "@angular/animations" := JStr("^14.0.0"),
        "@angular/common" := JStr("^14.0.0"),
        "@angular/compiler" := JStr("^14.0.0"),
        "@angular/core" := JStr("^14.0.0"),
        "@angular/forms" := JStr("^14.0.0"),
        "@angular/platform-browser" := JStr("^14.0.0"),
        "@angular/platform-browser-dynamic" := JStr("^14.0.0"),
        "@angular/router" := JStr("^14.0.0"),
        "rxjs" := JStr("~7.5.0"),
        "tslib" := JStr("^2.3.0"),
        "zone.js" := JStr("~0.11.4")]),
      "devDependencies" := JObj(map[
        "@angular-builders/custom-webpack" := JStr("^14.1.0"),
        "@angular-devkit/build-angular" := JStr("^14.2.1"),
        "copy-webpack-plugin" := JStr("^11.0.0"),
        "html-webpack-plugin" := JStr("^5.5.0"),
        "@angular/cli" := JStr("~14.2.1"),
        "@angular/compiler-cli" := JStr("^14.0.0"),
        "@types/jasmine" := JStr("~4.0.0"),
        "jasmine-core" := JStr("~4.3.0"),
        "karma" := JStr("~6.4.0"),
        "karma-chrome-launcher" := JStr("~3.1.0"),
        "karma-coverage" := JStr("~2.2.0"),
        "karma-jasmine" := JStr("~5.1.0"),
        "karma-jasmine-html-reporter" := JStr("~2.0.0"),
        "typescript" := JStr("~4.7.2")])])
  }

  function AngularPlan(spaPath: string, moduleName: string, fullNamespace: string): seq<Effect> {
    Copies(moduleName, AngularCopies(spaPath, moduleName, fullNamespace))
    + [ExtendJson(Into(moduleName, "package.json"), AngularPackageJson(moduleName))]
  }

  /** Everything `writing()` does, in order, for the props' framework and language;
      `launchJson` is the parsed `.vscode/launch.json`, if the file exists. */
  function WritingPlan(spaType: Option<string>, langType: Option<string>, moduleName: string,
                       fullNamespace: string, launchJson: Option<Json>): seq<Effect> {
    var spaPath := SpaPath(spaType, langType);
    if spaType == Some("ReactJS") then ReactPlan(spaPath, langType, moduleName, fullNamespace, launchJson)
    else if spaType == Some("VueJS") then Copies(moduleName, VueCopies(spaPath, moduleName, fullNamespace))
    else if spaType == Some("Angular") then AngularPlan(spaPath, moduleName, fullNamespace)
    else []
  }

  // The plan of each framework, one framework at a time.
  lemma WritingPlanReact(langType: Option<string>, moduleName: string, fullNamespace: string, launchJson: Option<Json>)
    ensures WritingPlan(Some("ReactJS"), langType, moduleName, fullNamespace, launchJson)
         == ReactPlan(SpaPath(Some("ReactJS"), langType), langType, moduleName, fullNamespace, launchJson)
  {
  }

  lemma WritingPlanVue(langType: Option<string>, moduleName: string, fullNamespace: string, launchJson: Option<Json>)
    ensures WritingPlan(Some("VueJS"), langType, moduleName, fullNamespace, launchJson)
         == Copies(moduleName, VueCopies(SpaPath(Some("VueJS"), langType), moduleName, fullNamespace))
  {
  }

  lemma WritingPlanAngular(langType: Option<string>, moduleName: string, fullNamespace: string, launchJson: Option<Json>)
    ensures WritingPlan(Some("Angular"), langType, moduleName, fullNamespace, launchJson)
         == AngularPlan(SpaPath(Some("Angular"), langType), moduleName, fullNamespace)
  {
  }

  /** Whether every effect of `plan` writes a file inside the module's
      directory or, when `launch` allows it, the debugger configuration. */
  predicate WritesInsideModule(plan: seq<Effect>, moduleName: string, launch: bool) {
    forall e :: e in plan ==>
      e.WritesFile() && (StartsWith(e.Target(), moduleName + "/") || (launch && e.Target() == LaunchJsonPath))
  }

  lemma CopiesStayInModule(moduleName: string, table: seq<(string, string)>)
    ensures WritesInsideModule(Copies(moduleName, table), moduleName, false)
  {
    var copies := Copies(moduleName, table);
    forall e | e in copies ensures e.WritesFile() && StartsWith(e.Target(), moduleName + "/") {
      var i :| 0 <= i < |copies| && copies[i] == e;
    }
  }

  lemma ConcatStaysInModule(a: seq<Effect>, b: seq<Effect>, moduleName: string, launch: bool)
    requires WritesInsideModule(a, moduleName, launch) && WritesInsideModule(b, moduleName, launch)
    ensures WritesInsideModule(a + b, moduleName, launch)
  {
  }

  /** The React config merges all land inside the module. */
  lemma ReactConfigStaysInModule(spaPath: string, langType: Option<string>, moduleName: string)
    ensures WritesInsideModule(ReactConfigEffects(spaPath, langType, moduleName), moduleName, false)
  {
    var lang := LanguageEffects(spaPath, moduleName, langType);
    assert WritesInsideModule(lang, moduleName, false);
    var babel := [ExtendJson(Into(moduleName, ".babelrc"), BabelRc())];
    var pkg := [ExtendJson(Into(moduleName, "package.json"), ReactPackageJson(ReactDevDependencies(langType)))];
    assert WritesInsideModule(babel, moduleName, false);
    assert WritesInsideModule(pkg, moduleName, false);
    ConcatStaysInModule(babel, lang, moduleName, false);
    ConcatStaysInModule(babel + lang, pkg, moduleName, false);
  }

  /** The launch.json effect, if any, writes `.vscode/launch.json`. */
  lemma LaunchEffectsTarget(launchJson: Option<Json>, moduleName: string)
    ensures forall e :: e in LaunchEffects(launchJson, moduleName) ==> e.WritesFile() && e.Target() == LaunchJsonPath
  {
  }

  /** The React branch writes only inside the module and the debugger configuration. */
  lemma ReactPlanStaysInModule(spaPath: string, langType: Option<string>, moduleName: string,
                               fullNamespace: string, launchJson: Option<Json>)
    ensures WritesInsideModule(ReactPlan(spaPath, langType, moduleName, fullNamespace, launchJson), moduleName, true)
  {
    var copies := Copies(moduleName, ReactCopies(spaPath, moduleName, fullNamespace));
    var config := ReactConfigEffects(spaPath, langType, moduleName);
    var launch := LaunchEffects(launchJson, moduleName);
    CopiesStayInModule(moduleName, ReactCopies(spaPath, moduleName, fullNamespace));
    ReactConfigStaysInModule(spaPath, langType, moduleName);
    ConcatStaysInModule(copies, config, moduleName, false);
    LaunchEffectsTarget(launchJson, moduleName);
    assert ReactPlan(spaPath, langType, moduleName, fullNamespace, launchJson) == copies + (config + launch);
    assert copies + (config + launch) == (copies + config) + launch;
  }

  /** The Angular branch writes only inside the module. */
  lemma AngularPlanStaysInModule(spaPath: string, moduleName: string, fullNamespace: string)
    ensures WritesInsideModule(AngularPlan(spaPath, moduleName, fullNamespace), moduleName, false)
  {
    CopiesStayInModule(moduleName, AngularCopies(spaPath, moduleName, fullNamespace));
    var pkg := [ExtendJson(Into(moduleName, "package.json"), AngularPackageJson(moduleName))];
    assert WritesInsideModule(pkg, moduleName, false);
    ConcatStaysInModule(Copies(moduleName, AngularCopies(spaPath, moduleName, fullNamespace)), pkg, moduleName, false);
  }

  /** The Vue branch, its six copies, writes only inside the module. */
  lemma VueWritesInsideModule(langType: Option<string>, moduleName: string, fullNamespace: string,
                              launchJson: Option<Json>)
    ensures WritesInsideModule(WritingPlan(Some("VueJS"), langType, moduleName, fullNamespace, launchJson), moduleName, false)
  {
    WritingPlanVue(langType, moduleName, fullNamespace, launchJson);
    CopiesStayInModule(moduleName, VueCopies(SpaPath(Some("VueJS"), langType), moduleName, fullNamespace));
  }

  /** Every effect of `writing()` writes a file inside the module's directory,
      except the React debugger configuration at the destination root; no
      process is run. */
  lemma WritingStaysInModule(spaType: Option<string>, langType: Option<string>, moduleName: string,
                             fullNamespace: string, launchJson: Option<Json>)
    ensures WritesInsideModule(WritingPlan(spaType, langType, moduleName, fullNamespace, launchJson),
                               moduleName, spaType == Some("ReactJS"))
  {
    if spaType == Some("ReactJS") {
      WritingPlanReact(langType, moduleName, fullNamespace, launchJson);
      ReactPlanStaysInModule(SpaPath(Some("ReactJS"), langType), langType, moduleName, fullNamespace, launchJson);
    } else if spaType == Some("VueJS") {
      VueWritesInsideModule(langType, moduleName, fullNamespace, launchJson);
    } else if spaType == Some("Angular") {
      WritingPlanAngular(langType, moduleName, fullNamespace, launchJson);
      AngularPlanStaysInModule(SpaPath(Some("Angular"), langType), moduleName, fullNamespace);
    } else {
      assert WritingPlan(spaType, langType, moduleName, fullNamespace, launchJson) == [];
    }
  }

  /** A framework other than the three writes nothing. */
  lemma UnknownSpaTypeWritesNothing(spaType: Option<string>, langType: Option<string>, moduleName: string,
                                    fullNamespace: string, launchJson: Option<Json>)
    requires spaType != Some("ReactJS") && spaType != Some("VueJS") && spaType != Some("Angular")
    ensures WritingPlan(spaType, langType, moduleName, fullNamespace, launchJson) == []
  {
  }

  /** Whether `plan` copies a template to `dest`. */
  predicate CopiesTo(plan: seq<Effect>, dest: string) {
    exists i :: 0 <= i < |plan| && plan[i].CopyTpl? && plan[i].to == dest
  }

  /** Row `i` of a copy table, whose destination is `dest`, is copied into the
      module whatever follows the copies. */
  lemma TableRowCopied(moduleName: string, table: seq<(string, string)>, rest: seq<Effect>, i: int, dest: string)
    requires 0 <= i < |table| && table[i].1 == dest
    ensures CopiesTo(Copies(moduleName, table) + rest, Into(moduleName, dest))
  {
    var plan := Copies(moduleName, table) + rest;
    assert plan[i] == CopyTpl(table[i].0, Into(moduleName, table[i].1));
  }

  // The rows of each table that name the project file and the manifest.
  lemma ReactCopyRows(spaPath: string, moduleName: string, fullNamespace: string)
    ensures var t := ReactCopies(spaPath, moduleName, fullNamespace);
      |t| == 25 && t[16].1 == moduleName + ".dnn" && t[20].1 == fullNamespace + ".csproj"
  {
  }

  lemma VueCopyRows(spaPath: string, moduleName: string, fullNamespace: string)
    ensures var t := VueCopies(spaPath, moduleName, fullNamespace);
      |t| == 6 && t[1].1 == moduleName + ".dnn" && t[0].1 == fullNamespace + ".csproj"
  {
  }

  lemma AngularCopyRows(spaPath: string, moduleName: string, fullNamespace: string)
    ensures var t := AngularCopies(spaPath, moduleName, fullNamespace);
      |t| == 26 && t[15].1 == moduleName + ".dnn" && t[19].1 == fullNamespace + ".csproj"
  {
  }

  lemma ReactProjectFileAndManifest(spaPath: string, langType: Option<string>, moduleName: string,
                                    fullNamespace: string, launchJson: Option<Json>)
    ensures var plan := ReactPlan(spaPath, langType, moduleName, fullNamespace, launchJson);
      && CopiesTo(plan, Into(moduleName, fullNamespace + ".csproj"))
      && CopiesTo(plan, Into(moduleName, moduleName + ".dnn"))
  {
    var table := ReactCopies(spaPath, moduleName, fullNamespace);
    var rest := ReactConfigEffects(spaPath, langType, moduleName) + LaunchEffects(launchJson, moduleName);
    ReactCopyRows(spaPath, moduleName, fullNamespace);
    TableRowCopied(moduleName, table, rest, 16, moduleName + ".dnn");
    TableRowCopied(moduleName, table, rest, 20, fullNamespace + ".csproj");
  }

  lemma VueProjectFileAndManifest(spaPath: string, moduleName: string, fullNamespace: string)
    ensures var plan := Copies(moduleName, VueCopies(spaPath, moduleName, fullNamespace));
      && CopiesTo(plan, Into(moduleName, fullNamespace + ".csproj"))
      && CopiesTo(plan, Into(moduleName, moduleName + ".dnn"))
  {
    var table := VueCopies(spaPath, moduleName, fullNamespace);
    VueCopyRows(spaPath, moduleName, fullNamespace);
    TableRowCopied(moduleName, table, [], 1, moduleName + ".dnn");
    TableRowCopied(moduleName, table, [], 0, fullNamespace + ".csproj");
    assert Copies(moduleName, table) + [] == Copies(moduleName, table);
  }

  lemma AngularProjectFileAndManifest(spaPath: string, moduleName: string, fullNamespace: string)
    ensures var plan := AngularPlan(spaPath, moduleName, fullNamespace);
      && CopiesTo(plan, Into(moduleName, fullNamespace + ".csproj"))
      && CopiesTo(plan, Into(moduleName, moduleName + ".dnn"))
  {
    var table := AngularCopies(spaPath, moduleName, fullNamespace);
    var rest := [ExtendJson(Into(moduleName, "package.json"), AngularPackageJson(moduleName))];
    AngularCopyRows(spaPath, moduleName, fullNamespace);
    TableRowCopied(moduleName, table, rest, 15, moduleName + ".dnn");
    TableRowCopied(moduleName, table, rest, 19, fullNamespace + ".csproj");
  }

  /** For each of the three frameworks the project file is named after the full
      namespace and the manifest after the module, both inside the module. */
  lemma ProjectFileAndManifest(spaType: Option<string>, langType: Option<string>, moduleName: string,
                               fullNamespace: string, launchJson: Option<Json>)
    requires spaType == Some("ReactJS") || spaType == Some("VueJS") || spaType == Some("Angular")
    ensures var plan := WritingPlan(spaType, langType, moduleName, fullNamespace, launchJson);
      && CopiesTo(plan, Into(moduleName, fullNamespace + ".csproj"))
      && CopiesTo(plan, Into(moduleName, moduleName + ".dnn"))
  {
    var spaPath := SpaPath(spaType, langType);
    if spaType == Some("ReactJS") {
      ReactProjectFileAndManifest(spaPath, langType, moduleName, fullNamespace, launchJson);
    } else if spaType == Some("VueJS") {
      VueProjectFileAndManifest(spaPath, moduleName, fullNamespace);
    } else {
      AngularProjectFileAndManifest(spaPath, moduleName, fullNamespace);
    }
  }

  /** The React `package.json` dependencies: the base packages, unchanged, plus
      the language's packages: the linters for plain JavaScript (jsx), the
      compiler and typings for any other language. */
  lemma ReactDevDependenciesByLanguage(langType: Option<string>)
    ensures var d := ReactDevDependencies(langType);
      && (forall k :: k in ReactBaseDevDependencies() ==> k in d && d[k] == ReactBaseDevDependencies()[k])
      && d.Keys == ReactBaseDevDependencies().Keys + LanguagePackages(langType).Keys
      && (langType == Some("jsx") <==> "eslint" in d)
      && (langType == Some("jsx") <==> "typescript" !in d)
  {
    LanguagePackagesAreNew();
    EslintIsNew();
    TypeScriptIsNew();
  }

  /** The React config merges: `.babelrc`, then `jsconfig.json` and the eslint
      config for plain JavaScript or `tsconfig.json` and the tslint config for
      any other language, then `package.json` with that language's packages. */
  lemma ReactLanguageChoice(spaPath: string, langType: Option<string>, moduleName: string)
    ensures var config := ReactConfigEffects(spaPath, langType, moduleName);
      && |config| == 4
      && config[0] == ExtendJson(Into(moduleName, ".babelrc"), BabelRc())
      && config[1] == (if langType == Some("jsx") then ExtendJson(Into(moduleName, "jsconfig.json"), JsConfig())
                       else ExtendJson(Into(moduleName, "tsconfig.json"), TsConfig()))
      && config[2] == (if langType == Some("jsx") then CopyTpl(spaPath + "/.eslintrc.js", Into(moduleName, ".eslintrc.js"))
                       else CopyTpl(spaPath + "/tslint.json", Into(moduleName, "tslint.json")))
      && config[3] == ExtendJson(Into(moduleName, "package.json"), ReactPackageJson(ReactDevDependencies(langType)))
  {
    var config := ReactConfigEffects(spaPath, langType, moduleName);
    var lang := LanguageEffects(spaPath, moduleName, langType);
    assert |lang| == 2;
  }

  /** In the React plan the config merges follow the copies directly. */
  lemma ReactConfigFollowsCopies(langType: Option<string>, moduleName: string, fullNamespace: string,
                                 launchJson: Option<Json>, i: int)
    requires 0 <= i < 4
    ensures var spaPath := SpaPath(Some("ReactJS"), langType);
      var plan := WritingPlan(Some("ReactJS"), langType, moduleName, fullNamespace, launchJson);
      var copies := |ReactCopies(spaPath, moduleName, fullNamespace)|;
      copies + i < |plan| && plan[copies + i] == ReactConfigEffects(spaPath, langType, moduleName)[i]
  {
    var spaPath := SpaPath(Some("ReactJS"), langType);
    var copies := Copies(moduleName, ReactCopies(spaPath, moduleName, fullNamespace));
    var config := ReactConfigEffects(spaPath, langType, moduleName);
    var rest := config + LaunchEffects(launchJson, moduleName);
    assert |config| == 4;
    assert WritingPlan(Some("ReactJS"), langType, moduleName, fullNamespace, launchJson) == copies + rest;
    assert (copies + rest)[|copies| + i] == rest[i] == config[i];
  }

  /** `tsconfig.json` for TypeScript React modules compiles to ES6 modules. */
  lemma TsConfigModuleEs6()
    ensures TsConfig().fields["compilerOptions"].fields["module"] == JStr("es6")
  {
  }

  // ---------------------------------------------------------------------------
  // install()

  /** `install()`: write the solution, restore, add the project, install
      dependencies, in that order, each step running whatever the earlier ones did. */
  function InstallPlan(p: Props, fileExists: string -> bool, noinstall: bool, which: WhichResult): seq<Effect> {
    var q := DefaultExtensionName(p);
    WriteSolutionEffects(p, fileExists)
    + [RestoreCommand(q), AddProjectCommand(q)]
    + InstallDependenciesEffects(q, noinstall, which)
  }

  /** The install sequence: `dotnet new sln` first exactly when the solution file
      is absent, then always restore and add-project, then one package-manager
      install unless `noinstall`: yarn unless the yarn lookup returned
      `undefined` (so also when it reported a miss as `null`), npm otherwise. */
  lemma InstallSequence(p: Props, fileExists: string -> bool, noinstall: bool, which: WhichResult)
    ensures var plan := InstallPlan(p, fileExists, noinstall, which);
      var ns := GetNamespace(p);
      var ext := ExtensionName(p);
      var created := if fileExists(ns + ".sln") then 0 else 1;
      && |plan| == created + 2 + (if noinstall then 0 else 1)
      && (created == 1 ==> plan[0] == Spawn("dotnet", ["new", "sln", "-n", ns, "-o", p.moduleName], None))
      && plan[created] == Spawn("dotnet", ["restore", ns + ".csproj"], Some(ext))
      && plan[created + 1] == Spawn("dotnet", ["sln", "..", "add", ext + "/" + ns + ".csproj"], None)
      && (!noinstall ==> plan[created + 2] == Spawn(if which != WhichUndefined then "yarn" else "npm", ["install"], Some(ext)))
      && forall e :: e in plan ==> e.Spawn?
  {
    var q := DefaultExtensionName(p);
    DefaultExtensionNameIdempotent(p);
    assert GetNamespace(q) == GetNamespace(p);
  }

  /** After prompting, every dotnet command names the full namespace and runs
      in, or refers to, the module's directory. */
  lemma InstallUsesFullNamespace(
    optionsCompany: Option<string>, answers: Answers, pascalCase: string -> string,
    uuid: string, msBuildVersion: string, fileExists: string -> bool, noinstall: bool, which: WhichResult)
    requires PromptingThen(optionsCompany, answers, pascalCase, uuid, msBuildVersion).Ok?
    ensures var p := PromptingThen(optionsCompany, answers, pascalCase, uuid, msBuildVersion).value;
      var plan := InstallPlan(p, fileExists, noinstall, which);
      var created := if fileExists(p.fullNamespace + ".sln") then 0 else 1;
      && plan[created] == Spawn("dotnet", ["restore", p.fullNamespace + ".csproj"], Some(p.moduleName))
      && plan[created + 1] == Spawn("dotnet", ["sln", "..", "add", p.moduleName + "/" + p.fullNamespace + ".csproj"], None)
  {
    var p := PromptingThen(optionsCompany, answers, pascalCase, uuid, msBuildVersion).value;
    NamespaceOfPromptedProps(optionsCompany, answers, pascalCase, uuid, msBuildVersion);
    InstallSequence(p, fileExists, noinstall, which);
  }
}
