/** The shared generator base class: the answer record every helper reads,
    `_getNamespace`, the solution and install commands, the JSON the config
    helpers merge, the yarn workspace, `_generateGuid` and MSBuild detection. */
module DnnBase {
  import opened Wrappers
  import opened JsText
  import opened JsonValue
  import opened Effects

  /** `this.props`: the prompt answers plus the fields derived from them.
      A missing answer is `None` (`undefined`). */
  datatype Props = Props(
    spaType: Option<string>,
    langType: Option<string>,
    name: Option<string>,
    description: Option<string>,
    namespace: string,
    moduleName: string,
    extensionType: Option<string>,
    extensionName: Option<string>,
    fullNamespace: string,
    guid: string,
    msBuildVersion: string)

  /** `_generateGuid`: the uuid library's value, upper-cased. A 36-character
      uuid stays 36 characters with its hyphens and digits in place, and each
      lower-case hex letter becomes its capital. */
  function GenerateGuid(uuid: string): (guid: string)
    ensures |guid| == |uuid|
    ensures forall i :: 0 <= i < |guid| ==> !IsLowerAscii(guid[i])
    ensures forall i :: 0 <= i < |uuid| && uuid[i] == '-' ==> guid[i] == '-'
    ensures forall i :: 0 <= i < |uuid| && !IsLowerAscii(uuid[i]) ==> guid[i] == uuid[i]
    ensures forall i :: 0 <= i < |uuid| && IsLowerAscii(uuid[i]) ==>
              'A' <= guid[i] <= 'Z' && guid[i] as int - 'A' as int == uuid[i] as int - 'a' as int
  {
    ToUpperCase(uuid)
  }

  // ---------------------------------------------------------------------------
  // _hasYarn

  /** What `which.sync('yarn', { nothrow: true })` hands back: a path when yarn
      is found; on a miss the `nothrow` option makes it return a value rather
      than throw, and this library's miss value is `null`, not `undefined`. */
  datatype WhichResult = WhichPath(path: string) | WhichNull | WhichUndefined

  /** `_hasYarn()`, as written: the lookup's result compared with `!== undefined`. */
  predicate HasYarn(w: WhichResult) {
    !w.WhichUndefined?
  }

  /** The test as written cannot tell a miss reported as `null` from a found
      path: both count as having yarn, so only an `undefined` result selects npm. */
  lemma HasYarnOnNullMiss(path: string)
    ensures HasYarn(WhichNull) && HasYarn(WhichPath(path))
    ensures forall w :: !HasYarn(w) <==> w == WhichUndefined
  {
  }

  // ---------------------------------------------------------------------------
  // _getNamespace and the extension-name default

  /** The extension name once a helper has defaulted it: the one set, else `moduleName`. */
  function ExtensionName(p: Props): string {
    match p.extensionName
    case Some(n) => n
    case None => p.moduleName
  }

  /** `if (this.props.extensionName == undefined) this.props.extensionName = this.props.moduleName;` */
  function DefaultExtensionName(p: Props): (q: Props)
    ensures q.extensionName == Some(ExtensionName(p))
    ensures p.extensionName.Some? ==> q == p
    ensures q == p.(extensionName := q.extensionName)
  {
    if p.extensionName.None? then p.(extensionName := Some(p.moduleName)) else p
  }

  /** Defaulting the extension name twice is defaulting it once, and never
      changes the name `_getNamespace` uses. */
  lemma DefaultExtensionNameIdempotent(p: Props)
    ensures DefaultExtensionName(DefaultExtensionName(p)) == DefaultExtensionName(p)
    ensures ExtensionName(DefaultExtensionName(p)) == ExtensionName(p)
  {
  }

  /** The dotted name `_getNamespace` builds: namespace, then the extension type
      unless it is undefined or empty, then the extension name. */
  function Namespace(namespace: string, extensionType: Option<string>, extensionName: string): (r: string)
    ensures (extensionType == None || extensionType == Some("")) ==>
              r == namespace + "." + extensionName
    ensures extensionType.Some? && extensionType.value != "" ==>
              r == namespace + "." + extensionType.value + "." + extensionName
  {
    var withType :=
      if extensionType.Some? && extensionType.value != "" then namespace + "." + extensionType.value
      else namespace;
    withType + "." + extensionName
  }

  /** What `_getNamespace()` returns for these props. */
  function GetNamespace(p: Props): string {
    Namespace(p.namespace, p.extensionType, ExtensionName(p))
  }

  // ---------------------------------------------------------------------------
  // Solution, restore and install commands

  /** `_createSolutionFromTemplate`: `dotnet new sln -n <namespace> -o <moduleName>`. */
  function CreateSolutionCommand(p: Props): Effect {
    Spawn("dotnet", ["new", "sln", "-n", GetNamespace(p), "-o", p.moduleName], None)
  }

  /** The solution file `_writeSolution` looks for. */
  function SolutionFile(p: Props): string {
    GetNamespace(p) + ".sln"
  }

  /** `_writeSolution`: create the solution only when its file does not exist. */
  function WriteSolutionEffects(p: Props, fileExists: string -> bool): seq<Effect> {
    if !fileExists(SolutionFile(p)) then [CreateSolutionCommand(DefaultExtensionName(p))] else []
  }

  /** `_addProjectToSolution`: `dotnet sln .. add <extensionName>/<namespace>.csproj`. */
  function AddProjectCommand(p: Props): Effect {
    Spawn("dotnet", ["sln", "..", "add", ExtensionName(p) + "/" + GetNamespace(p) + ".csproj"], None)
  }

  /** `_restoreSolution`: `dotnet restore <namespace>.csproj` inside the extension's directory. */
  function RestoreCommand(p: Props): Effect {
    Spawn("dotnet", ["restore", GetNamespace(p) + ".csproj"], Some(ExtensionName(p)))
  }

  /** `_installDependencies`: nothing under `noinstall`, else `yarn install` when
      `_hasYarn()` holds and `npm install` otherwise, inside the extension's directory. */
  function InstallDependenciesEffects(p: Props, noinstall: bool, which: WhichResult): seq<Effect> {
    if noinstall then []
    else [Spawn(if HasYarn(which) then "yarn" else "npm", ["install"], Some(ExtensionName(p)))]
  }

  // ---------------------------------------------------------------------------
  // JSON written by the config helpers

  /** `_writeJsConfig` */
  function JsConfig(): Json {
    JObj(map[
      "compilerOptions" := JObj(map[
        "target" := JStr("es6"),
        "module" := JStr("commonjs"),
        "allowSyntheticDefaultImports" := JBool(true)]),
      "exclude" := JArr([JStr("node_modules")])])
  }

  /** `_writeTsConfig` */
  function TsConfig(): Json {
    JObj(map[
      "compilerOptions" := JObj(map[
        "module" := JStr("es6"),
        "target" := JStr("es6"),
        "moduleResolution" := JStr("node"),
        "baseUrl" := JStr("src"),
        "allowSyntheticDefaultImports" := JBool(true),
        "noImplicitAny" := JBool(false),
        "sourceMap" := JBool(true),
        "outDir" := JStr("ts-build"),
        "jsx" := JStr("react")]),
      "exclude" := JArr([JStr("node_modules")])])
  }

  /** `_writeBabelRc` */
  function BabelRc(): Json {
    JObj(map[
      "presets" := JArr([JStr("@babel/preset-env"), JStr("@babel/preset-react")]),
      "plugins" := JArr([
        JStr("@babel/plugin-transform-object-assign"),
        JStr("@babel/plugin-proposal-object-rest-spread")]),
      "env" := JObj(map[
        "production" := JObj(map[
          "plugins" := JArr([JStr("transform-react-remove-prop-types")])])])])
  }

  // ---------------------------------------------------------------------------
  // _createYarnWorkspace

  /** The root `package.json` that declares the module as the one yarn workspace. */
  function WorkspaceJson(p: Props): Json {
    JObj(map[
      "name" := JStr(p.namespace),
      "version" := JStr("1.0.0"),
      "description" := JStr("Project workspace"),
      "private" := JBool(true),
      "workspaces" := JArr([JStr(p.moduleName)]),
      "scripts" := JObj(map[
        "test" := JStr("lerna run test"),
        "clean" := JStr("lerna run clean"),
        "build" := JStr("lerna run build"),
        "build-client" := JStr("lerna run build-client"),
        "package" := JStr("lerna run package")]),
      "devDependencies" := JObj(map["browser-sync" := JStr("^2.26.3")]),
      "dependencies" := JObj(map["lerna" := JStr("^3.8.4")])])
  }

  /** The `lerna.json` whose packages are the module alone. */
  function LernaJson(p: Props): Json {
    JObj(map[
      "lerna" := JStr("3.8.4"),
      "npmClient" := JStr("yarn"),
      "packages" := JArr([JStr(p.moduleName)]),
      "version" := JStr("1.0.0")])
  }

  /** `_createYarnWorkspace`: nothing unless `_hasYarn()`, else merge both files at the destination root. */
  function YarnWorkspaceEffects(p: Props, which: WhichResult): seq<Effect> {
    if !HasYarn(which) then []
    else [ExtendJson("package.json", WorkspaceJson(p)), ExtendJson("lerna.json", LernaJson(p))]
  }

  /** Without yarn no file is touched; with it, the workspace list and lerna's
      package list are both exactly the module's name. */
  lemma YarnWorkspaceListsModuleOnly(p: Props, which: WhichResult)
    ensures !HasYarn(which) ==> YarnWorkspaceEffects(p, which) == []
    ensures HasYarn(which) ==>
      var effects := YarnWorkspaceEffects(p, which);
      && |effects| == 2
      && effects[0].ExtendJson? && effects[0].path == "package.json"
      && effects[0].value.fields["workspaces"] == JArr([JStr(p.moduleName)])
      && effects[1].ExtendJson? && effects[1].path == "lerna.json"
      && effects[1].value.fields["packages"] == JArr([JStr(p.moduleName)])
  {
  }

  // ---------------------------------------------------------------------------
  // _getMsBuildVersion

  /** The outcome of `fs.existsSync` on one path. */
  datatype Probe = Exists | Absent | Throws

  /** The four Visual Studio 2019 editions, probed together for version 16. */
  const Vs2019Targets: seq<string> := [
    "C:\\Program Files (x86)\\Microsoft Visual Studio\\2019\\Community\\MSBuild\\Microsoft\\VisualStudio\\v16.0\\WebApplications\\Microsoft.WebApplication.targets",
    "C:\\Program Files (x86)\\Microsoft Visual Studio\\2019\\Professional\\MSBuild\\Microsoft\\VisualStudio\\v16.0\\WebApplications\\Microsoft.WebApplication.targets",
    "C:\\Program Files (x86)\\Microsoft Visual Studio\\2019\\Enterprise\\MSBuild\\Microsoft\\VisualStudio\\v16.0\\WebApplications\\Microsoft.WebApplication.targets",
    "C:\\Program Files (x86)\\Microsoft Visual Studio\\2019\\BuildTools\\MSBuild\\Microsoft\\VisualStudio\\v16.0\\WebApplications\\Microsoft.WebApplication.targets"]

  const Vs2015Target := "C:\\Program Files (x86)\\MSBuild\\Microsoft\\VisualStudio\\v14.0\\WebApplications\\Microsoft.WebApplication.targets"
  const Vs2013Target := "C:\\Program Files (x86)\\MSBuild\\Microsoft\\VisualStudio\\v12.0\\WebApplications\\Microsoft.WebApplication.targets"
  const Vs2012Target := "C:\\Program Files (x86)\\MSBuild\\Microsoft\\VisualStudio\\v11.0\\WebApplications\\Microsoft.WebApplication.targets"

  /** The version each probe group stands for, in the order the groups are probed. */
  const MsBuildVersions: seq<string> := ["16", "14", "13", "11"]

  /** `existsSync(a) || existsSync(b) || ...`: left to right, stopping at the
      first path that exists; an exception escapes unless an earlier path existed. */
  function AnyExists(paths: seq<string>, probe: string -> Probe): (r: Probe)
    ensures r == Exists <==>
      exists i :: 0 <= i < |paths| && probe(paths[i]) == Exists && forall j :: 0 <= j < i ==> probe(paths[j]) == Absent
    ensures r == Throws <==>
      exists i :: 0 <= i < |paths| && probe(paths[i]) == Throws && forall j :: 0 <= j < i ==> probe(paths[j]) == Absent
  {
    if paths == [] then Absent
    else match probe(paths[0])
      case Exists => Exists
      case Throws => Throws
      case Absent =>
        var r := AnyExists(paths[1..], probe);
        assert forall i :: 0 < i < |paths| ==> paths[i] == paths[1..][i - 1];
        r
  }

  /** The outcome of each of the four tests, in source order. */
  function GroupOutcomes(probe: string -> Probe): (o: seq<Probe>)
    ensures |o| == |MsBuildVersions|
  {
    [AnyExists(Vs2019Targets, probe), probe(Vs2015Target), probe(Vs2013Target), probe(Vs2012Target)]
  }

  /** The version `_getMsBuildVersion` reports: every test that succeeds
      overwrites the version, so the LAST group that exists wins; no group
      gives ""; an exception from any probe gives "". */
  predicate DetectedVersion(probe: string -> Probe, v: string) {
    var o := GroupOutcomes(probe);
    if Throws in o || Exists !in o then v == ""
    else exists g :: 0 <= g < 4 && o[g] == Exists && v == MsBuildVersions[g]
           && forall h :: g < h < 4 ==> o[h] != Exists
  }

  /** Exactly one version is detected for a given file system. */
  lemma DetectedVersionUnique(probe: string -> Probe, v: string, w: string)
    requires DetectedVersion(probe, v) && DetectedVersion(probe, w)
    ensures v == w
  {
    var o := GroupOutcomes(probe);
    if Throws !in o && Exists in o {
      var g :| 0 <= g < 4 && o[g] == Exists && v == MsBuildVersions[g]
               && forall h :: g < h < 4 ==> o[h] != Exists;
      var k :| 0 <= k < 4 && o[k] == Exists && w == MsBuildVersions[k]
               && forall h :: k < h < 4 ==> o[h] != Exists;
      assert g == k;
    }
  }

  /** With Visual Studio 2012's targets present and no probe failing, "11" is
      reported even when newer versions are installed. */
  lemma OldestInstalledWins(probe: string -> Probe)
    requires Throws !in GroupOutcomes(probe)
    requires probe(Vs2012Target) == Exists
    ensures DetectedVersion(probe, "11")
  {
    var o := GroupOutcomes(probe);
    assert o[3] == Exists;
    assert MsBuildVersions[3] == "11";
  }

  /** `_getMsBuildVersion`: the four tests in order, each success overwriting the version. */
  method GetMsBuildVersion(probe: string -> Probe) returns (msBuildVersion: string)
    ensures DetectedVersion(probe, msBuildVersion)
  {
    var o := GroupOutcomes(probe);
    ghost var last := -1;  // the index of the group that set the version
    msBuildVersion := "";
    var found := AnyExists(Vs2019Targets, probe);
    if found == Throws { return ""; }
    if found == Exists { msBuildVersion, last := "16", 0; }
    found := probe(Vs2015Target);
    if found == Throws { return ""; }
    if found == Exists { msBuildVersion, last := "14", 1; }
    found := probe(Vs2013Target);
    if found == Throws { return ""; }
    if found == Exists { msBuildVersion, last := "13", 2; }
    found := probe(Vs2012Target);
    if found == Throws { return ""; }
    if found == Exists { msBuildVersion, last := "11", 3; }
    assert Throws !in o;
    if last >= 0 {
      assert o[last] == Exists && msBuildVersion == MsBuildVersions[last];
    } else {
      assert forall g :: 0 <= g < 4 ==> o[g] != Exists;
    }
  }
}
