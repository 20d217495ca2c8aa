# upendodnn SPA module generator, modelled in Dafny

This project models the core of the Yeoman generator that scaffolds a DNN
single-page-application module (React, Vue or Angular), together with the
base class it shares with the other generators of the repository.

- **Prompting.** After prompting, the namespace is derived from the
  `company` option and the module name from the name answer. A trailing ` -f` asks for the text to be kept
  as typed; any other name is pascal-cased. The full namespace is
  `<namespace>.Modules.<moduleName>`, built from the namespace derived
  from the company option and the module name derived from the name
  answer. The props also hold a fresh upper-case GUID and the MSBuild
  version found on the machine.
- **Writing.** `writing()` copies the templates of the chosen framework
  into `<moduleName>/`. For React it then merges `.babelrc`, the
  language's config and `package.json` (with the packages of the chosen
  script language), and creates `.vscode/launch.json` or appends one
  debugger entry to it.
- **Install.** `install()` writes the solution only if its file is
  missing, restores and adds the project, then installs the node packages
  unless `--noinstall` is given.

A run is modelled as a **trace** of effects in order: template copies, JSON
merges, JSON overwrites and spawned commands (module `Effects`). The
decisions of the generator are pure functions from props to effect
sequences (modules `DnnBase` and `SpaPlan`). The generator object itself is
the class `SpaGenerator.Generator`. Its `props` are updated in place the
way the base helpers update `this.props`. Each method is proved to append
exactly the effects the plan functions give and to leave `props` as they
say.

Modules:
- `Wrappers`: `Option` and `Result`.
- `JsText`: the JavaScript string built-ins the code relies on:
  - `endsWith`;
  - `replace` with a string pattern, which replaces the FIRST occurrence only;
  - `toUpperCase` on ASCII;
  - `${undefined}`.
- `JsonValue`: JSON values and object spread.
- `Effects`: the trace entries.
- `DnnBase`: `DnnGeneratorBase.js`.
- `SpaPlan` and `SpaGenerator`: `spa/index.js`.

Library calls are parameters of the model:
- `pascalCase` (the pascal-case package);
- `uuid` (uuid-v4's value);
- `probe` (the outcome of `fs.existsSync` on each MSBuild target: exists, absent, or `Throws`, which stands for the code's `catch` branch);
- `fileExists` (the in-memory file system's `exists`);
- `which` (the value the yarn lookup in `_hasYarn()` returns: a path, `null` or `undefined`);
- `launchJson` (the parsed `.vscode/launch.json`, when it exists).

The code departs from the usual reading of its conventions in these ways,
and the model follows the code:
- A name ending in ` -f` loses the FIRST occurrence of ` -f`, which is not
  always the trailing one.
- The namespace is derived from the `company` command-line option, never
  from the prompted company. When the option is absent, `endsWith` is
  called on `undefined` and the callback throws (`CompanyUndefined`).
- When `--name` is given, the name question is skipped
  (generators/spa/index.js:43), so the answer `props.name` stays
  undefined and the `endsWith` call on it at line 78 throws
  (`NameUndefined`).
- When `--spaType` is given, the framework question is skipped
  (generators/spa/index.js:10), so `props.spaType` stays undefined and
  `writing()` matches none of its three branches and writes nothing
  (`SpaPlan.UnknownSpaTypeWritesNothing`).
- `_hasYarn()` compares the lookup's result with `!== undefined` while
  asking the lookup not to throw; a miss reported as `null` therefore
  still selects yarn (`DnnBase.HasYarnOnNullMiss`).

## Model

| member | source | states |
|---|---|---|
| JsText.EndsWith | generators/spa/index.js:72-78 | `endsWith(" -f")`: the pattern is a suffix of the text; `SpaPlan.DeriveName` and its lemmas are stated over it |
| JsText.Interpolate | generators/spa/index.js:102 | a template literal renders an undefined value as "undefined"; used by `SpaPlan.SpaPath`, whose contract states the rendered paths |
| JsText.Replace | generators/spa/index.js:73 | `replace` with a string pattern: the input unchanged when the pattern does not occur, otherwise the text with exactly the leftmost occurrence replaced |
| JsText.ToUpperCase | generators/lib/DnnGeneratorBase.js:23 | same length, no lower-case letter left, every other character unchanged, each lower-case letter mapped to its capital |
| JsText.ToUpperCaseIdempotent | generators/lib/DnnGeneratorBase.js:21-24 | upper-casing twice is upper-casing once |
| JsonValue.Spread | generators/spa/index.js:338-343 | `{...base, ...extra}`: the keys of both, the value from `extra` where both have the key, else from `base` |
| DnnBase.GenerateGuid | generators/lib/DnnGeneratorBase.js:21-24 | the GUID keeps the uuid's length, hyphens and every other non-lower-case character, has no lower-case letter, and each lower-case letter of the uuid becomes its capital |
| DnnBase.HasYarn | generators/lib/DnnGeneratorBase.js:17-19 | `_hasYarn()` as written: the lookup's result is not `undefined` |
| DnnBase.HasYarnOnNullMiss | generators/lib/DnnGeneratorBase.js:17-19 | a found path and a miss reported as `null` both count as having yarn; only an `undefined` result does not |
| DnnBase.ExtensionName | generators/lib/DnnGeneratorBase.js:117 | the extension name once defaulted: the one set, else the module name; `DnnBase.DefaultExtensionName` is proved to store it |
| DnnBase.DefaultExtensionName | generators/lib/DnnGeneratorBase.js:117 | afterwards the extension name is set: to the old one if there was one (props unchanged), else to the module name; no other field changes |
| DnnBase.DefaultExtensionNameIdempotent | generators/lib/DnnGeneratorBase.js:112-120 | defaulting the extension name twice is defaulting it once and does not change the name `_getNamespace` uses |
| DnnBase.GetNamespace | generators/lib/DnnGeneratorBase.js:112-120 | `_getNamespace()`'s value for given props: the dotted name of `DnnBase.Namespace` over the defaulted extension name; `SpaPlan.NamespaceOfPromptedProps` proves it is the full namespace after prompting |
| DnnBase.CreateSolutionCommand | generators/lib/DnnGeneratorBase.js:30-42 | the `dotnet new sln -n <namespace> -o <moduleName>` command; its placement in `install()` is stated by `SpaPlan.InstallSequence` |
| DnnBase.SolutionFile | generators/lib/DnnGeneratorBase.js:61 | the `<namespace>.sln` file `_writeSolution` tests; `SpaPlan.InstallSequence` states that creation happens exactly when it is absent |
| DnnBase.WriteSolutionEffects | generators/lib/DnnGeneratorBase.js:59-70 | the solution is created only when `<namespace>.sln` does not exist; proved as the first clause of `SpaPlan.InstallSequence` |
| DnnBase.AddProjectCommand | generators/lib/DnnGeneratorBase.js:44-57 | the `dotnet sln .. add <extensionName>/<namespace>.csproj` command; `SpaPlan.InstallUsesFullNamespace` states it names the full namespace after prompting |
| DnnBase.RestoreCommand | generators/lib/DnnGeneratorBase.js:90-99 | `dotnet restore <namespace>.csproj` run inside the extension's directory; `SpaPlan.InstallUsesFullNamespace` states it after prompting |
| DnnBase.InstallDependenciesEffects | generators/lib/DnnGeneratorBase.js:72-88 | nothing under `noinstall`, else one `yarn install` or `npm install` in the extension's directory as `_hasYarn()` decides; stated by `SpaPlan.InstallSequence` |
| DnnBase.JsConfig | generators/lib/DnnGeneratorBase.js:131-140 | the object `_writeJsConfig` merges into `jsconfig.json`; where it goes is stated by `SpaPlan.ReactLanguageChoice` |
| DnnBase.TsConfig | generators/lib/DnnGeneratorBase.js:142-157 | the object `_writeTsConfig` merges into `tsconfig.json`; `SpaPlan.TsConfigModuleEs6` states its module setting |
| DnnBase.BabelRc | generators/lib/DnnGeneratorBase.js:159-172 | the object `_writeBabelRc` merges into `.babelrc`; `SpaPlan.ReactLanguageChoice` states it is the first React merge |
| DnnBase.WorkspaceJson | generators/lib/DnnGeneratorBase.js:177-203 | the root `package.json` declaring the module as the only workspace; stated by `DnnBase.YarnWorkspaceListsModuleOnly` |
| DnnBase.LernaJson | generators/lib/DnnGeneratorBase.js:207-212 | the `lerna.json` listing the module as the only package; stated by `DnnBase.YarnWorkspaceListsModuleOnly` |
| DnnBase.YarnWorkspaceEffects | generators/lib/DnnGeneratorBase.js:174-215 | `_createYarnWorkspace`: nothing unless `_hasYarn()`, else the two root merges; stated by `DnnBase.YarnWorkspaceListsModuleOnly` |
| DnnBase.Namespace | generators/lib/DnnGeneratorBase.js:112-120 | `namespace.extensionName` when the extension type is undefined or empty, `namespace.extensionType.extensionName` otherwise |
| DnnBase.YarnWorkspaceListsModuleOnly | generators/lib/DnnGeneratorBase.js:174-215 | without yarn nothing is written; with yarn `package.json` then `lerna.json` at the root, whose workspace and package lists are exactly the module |
| DnnBase.AnyExists | generators/lib/DnnGeneratorBase.js:222-225 | the chain of `existsSync` calls joined by logical or reports "exists" iff some path exists and all before it are absent, and throws iff some probe throws and all before it are absent |
| DnnBase.GroupOutcomes | generators/lib/DnnGeneratorBase.js:222-239 | the outcome of each of the four tests in source order, the VS 2019 group through `DnnBase.AnyExists`; one outcome per version |
| DnnBase.DetectedVersion | generators/lib/DnnGeneratorBase.js:217-250 | the version `_getMsBuildVersion` settles on: "" when a probe throws or no group exists, else the version of the last existing group; `DnnBase.GetMsBuildVersion` is proved to return it |
| DnnBase.DetectedVersionUnique | generators/lib/DnnGeneratorBase.js:217-250 | the detected MSBuild version is determined by the file system: two detected versions are equal |
| DnnBase.OldestInstalledWins | generators/lib/DnnGeneratorBase.js:229-239 | because each success overwrites the version, VS 2012's targets give "11" even when newer versions are installed |
| DnnBase.GetMsBuildVersion | generators/lib/DnnGeneratorBase.js:217-250 | "" when any probe throws or no group exists; otherwise the version of the last group whose targets exist |
| SpaPlan.DeriveName | generators/spa/index.js:72-83 | without the ` -f` suffix, the pascal-cased text; with it, the text three characters shorter, with the leftmost ` -f` removed |
| SpaPlan.OverrideStripsSuffix | generators/spa/index.js:72-74 | when ` -f` occurs only at the end, the name is the raw text without it, case preserved |
| SpaPlan.OverrideRemovesFirstOccurrence | generators/spa/index.js:72-74 | when ` -f` also occurs earlier, the earlier one is removed and the derived name still ends in ` -f` |
| SpaPlan.OverrideExample | generators/spa/index.js:72-74 | "Acme Corp -f" gives "Acme Corp" |
| SpaPlan.PromptingThen | generators/spa/index.js:69-90 | fails exactly when the company option is undefined, or else when the name answer is; otherwise namespace and module name are derived, the extension type is "Modules", the full namespace is `namespace.Modules.moduleName`, and the GUID and MSBuild version are stored |
| SpaPlan.PromptedCompanyIgnored | generators/spa/index.js:32-41 | the prompted company answer never changes the derived props |
| SpaPlan.NamespaceOfPromptedProps | generators/spa/index.js:84-85 | on freshly derived props `_getNamespace()` is the full namespace, before and after the extension name is defaulted to the module name |
| SpaPlan.SpaPath | generators/spa/index.js:102 | "ReactJS/" followed by the language for React, "ReactJS/undefined" when the language is undefined; the framework name followed by "/" for any other; an undefined framework renders as "undefined/" |
| SpaPlan.ReactCopies | generators/spa/index.js:131-281 | the React copy table; `SpaPlan.ReactCopyRows` states its size and the manifest and project rows |
| SpaPlan.VueCopies | generators/spa/index.js:393-429 | the Vue copy table; `SpaPlan.VueCopyRows` states its size and the manifest and project rows |
| SpaPlan.AngularCopies | generators/spa/index.js:431-586 | the Angular copy table; `SpaPlan.AngularCopyRows` states its size and the manifest and project rows |
| SpaPlan.Copies | generators/spa/index.js:131-281 | one template copy per table row, in row order, each into the module's directory |
| SpaPlan.ReactBaseDevDependencies | generators/spa/index.js:286-318 | the React `devDependencies` before the language's packages; `SpaPlan.LanguagePackagesAreNew` and `SpaPlan.ReactDevDependenciesByLanguage` state how they combine |
| SpaPlan.ReactDependencies | generators/spa/index.js:319-326 | the React `dependencies`, which no language choice changes |
| SpaPlan.JsxDevDependencies | generators/spa/index.js:338-343 | the packages jsx spreads in; `SpaPlan.LanguagePackages` states their keys |
| SpaPlan.TsxDevDependencies | generators/spa/index.js:353-359 | the packages any other language spreads in; `SpaPlan.LanguagePackages` states their keys |
| SpaPlan.LanguagePackages | generators/spa/index.js:329-360 | jsx adds exactly eslint and eslint-plugin-react; any other language adds exactly the React typings, ts-loader and typescript |
| SpaPlan.LanguagePackagesAreNew | generators/spa/index.js:285-360 | no package added for a language is already a base dev dependency |
| SpaPlan.ReactDevDependencies | generators/spa/index.js:338-359 | `{...pkgJson.devDependencies, ...}`: the base spread with the language's packages; stated by `SpaPlan.ReactDevDependenciesByLanguage` |
| SpaPlan.ReactPackageJson | generators/spa/index.js:285-327 | the `package.json` object React merges, with the language's dev dependencies; `SpaPlan.ReactLanguageChoice` states it is the last config merge |
| SpaPlan.LanguageEffects | generators/spa/index.js:329-360 | the language's config merge and linter copy; stated by `SpaPlan.ReactLanguageChoice` and `SpaPlan.ReactConfigStaysInModule` |
| SpaPlan.ReactConfigEffects | generators/spa/index.js:283-363 | `.babelrc`, the language's two effects, then `package.json`; stated by `SpaPlan.ReactLanguageChoice` and `SpaPlan.ReactConfigStaysInModule` |
| SpaPlan.ReactDevDependenciesByLanguage | generators/spa/index.js:329-360 | every base dev dependency is kept with its version; the keys are the base plus the language's; eslint is present iff the language is jsx, typescript iff it is not |
| SpaPlan.AppendConfiguration | generators/spa/index.js:380-384 | defined iff the parsed file has a `configurations` array; then every other key is kept and the array gains the entry at its end |
| SpaPlan.LaunchConfig | generators/spa/index.js:365-374 | the Chrome debugger entry named after the module; `SpaPlan.LaunchJsonAppendsOneEntry` states that the entry it adds last carries that name |
| SpaPlan.NewLaunchJson | generators/spa/index.js:386-390 | the fresh launch.json at version "0.2.0" holding that one entry; stated by `SpaPlan.LaunchJsonAppendsOneEntry` |
| SpaPlan.LaunchEffects | generators/spa/index.js:365-392 | the launch.json create-or-append write; stated by `SpaPlan.LaunchJsonAppendsOneEntry` and `SpaPlan.LaunchEffectsTarget` |
| SpaPlan.LaunchJsonAppendsOneEntry | generators/spa/index.js:365-392 | one write of `.vscode/launch.json`: a fresh file at version "0.2.0" with the one entry, or the existing entries in order followed by the entry named after the module |
| SpaPlan.LaunchEffectsTarget | generators/spa/index.js:377-392 | the debugger configuration only ever writes `.vscode/launch.json` |
| SpaPlan.ReactPlan | generators/spa/index.js:131-392 | the React branch of `writing()`: copies, config merges, launch.json; stated by `SpaPlan.ReactPlanStaysInModule`, `SpaPlan.ReactConfigFollowsCopies` and `SpaPlan.ReactProjectFileAndManifest` |
| SpaPlan.AngularPackageJson | generators/spa/index.js:588-625 | the object the Angular branch merges into `<moduleName>/package.json` after its copies (scripts, dependencies, dev dependencies); where it goes is stated by `SpaPlan.AngularPlanStaysInModule` |
| SpaPlan.AngularPlan | generators/spa/index.js:431-626 | the Angular branch of `writing()`: copies, then the `package.json` merge; stated by `SpaPlan.AngularPlanStaysInModule` and `SpaPlan.AngularProjectFileAndManifest` |
| SpaPlan.WritingPlan | generators/spa/index.js:93-628 | `writing()`'s effects chosen by framework; stated by `SpaPlan.WritingStaysInModule`, `SpaPlan.ProjectFileAndManifest` and `SpaPlan.UnknownSpaTypeWritesNothing` |
| SpaPlan.ReactConfigStaysInModule | generators/spa/index.js:283-363 | the React config merges and linter copy all write inside the module's directory |
| SpaPlan.ReactPlanStaysInModule | generators/spa/index.js:131-392 | every effect of the React branch writes a file inside the module's directory or `.vscode/launch.json` |
| SpaPlan.AngularPlanStaysInModule | generators/spa/index.js:431-625 | every Angular effect writes a file inside the module's directory |
| SpaPlan.VueWritesInsideModule | generators/spa/index.js:393-429 | `writing()` for Vue writes only inside the module |
| SpaPlan.WritingStaysInModule | generators/spa/index.js:93-628 | every effect of `writing()` writes a file (no process runs) inside the module's directory, the React debugger configuration excepted |
| SpaPlan.UnknownSpaTypeWritesNothing | generators/spa/index.js:131-627 | a framework other than ReactJS, VueJS and Angular writes nothing |
| SpaPlan.ReactCopyRows | generators/spa/index.js:229-256 | the React table has 25 rows; the manifest goes to `<moduleName>.dnn` and the project to `<fullNamespace>.csproj` |
| SpaPlan.VueCopyRows | generators/spa/index.js:394-403 | the Vue table has 6 rows; project file first, manifest second |
| SpaPlan.AngularCopyRows | generators/spa/index.js:522-549 | the Angular table has 26 rows; the manifest and project rows are named after module and full namespace |
| SpaPlan.ReactProjectFileAndManifest | generators/spa/index.js:229-256 | the React plan copies `<fullNamespace>.csproj` and `<moduleName>.dnn` into the module |
| SpaPlan.VueProjectFileAndManifest | generators/spa/index.js:394-403 | the Vue plan copies both files into the module |
| SpaPlan.AngularProjectFileAndManifest | generators/spa/index.js:522-549 | the Angular plan copies both files into the module |
| SpaPlan.ProjectFileAndManifest | generators/spa/index.js:131-627 | for each of the three frameworks, `writing()` copies the project file named after the full namespace and the manifest named after the module into the module |
| SpaPlan.ReactLanguageChoice | generators/spa/index.js:283-363 | the React merges are `.babelrc`, then jsconfig and the eslint config for jsx (tsconfig and the tslint config otherwise), then `package.json` with that language's packages |
| SpaPlan.ReactConfigFollowsCopies | generators/spa/index.js:277-285 | in the React plan the four config effects come right after the 25 copies |
| SpaPlan.TsConfigModuleEs6 | generators/lib/DnnGeneratorBase.js:142-157 | the TypeScript config compiles to ES6 modules |
| SpaPlan.InstallPlan | generators/spa/index.js:630-635 | `install()`'s effects: write solution, restore, add project, install dependencies; stated by `SpaPlan.InstallSequence` |
| SpaPlan.InstallSequence | generators/spa/index.js:630-635 | `dotnet new sln` first exactly when the solution file is missing; then restore inside the extension directory; then add the project; then, unless `noinstall`, `yarn install` unless the yarn lookup returned `undefined`, `npm install` otherwise; only commands run |
| SpaPlan.InstallUsesFullNamespace | generators/spa/index.js:630-635 | after prompting, restore and add-project name `<fullNamespace>.csproj` inside the module's directory |
| SpaGenerator.Generator.constructor | generators/lib/DnnGeneratorBase.js:10-15 | a new generator has no props, an empty trace and the `noinstall` option |
| SpaGenerator.Generator.EmitCopies | generators/spa/index.js:131-281 | the loop appends exactly the table's copies, in order, and leaves props unchanged |
| SpaGenerator.Generator.Prompting | generators/spa/index.js:63-90 | the MSBuild version is the detected one; props become the derived props on success and are untouched when the callback throws; nothing is written |
| SpaGenerator.Generator.GetNamespace | generators/lib/DnnGeneratorBase.js:112-120 | returns the dotted namespace of the old props and defaults the extension name in place; nothing is written |
| SpaGenerator.Generator.CreateSolutionFromTemplate | generators/lib/DnnGeneratorBase.js:30-42 | appends `dotnet new sln -n <namespace> -o <moduleName>` |
| SpaGenerator.Generator.WriteSolution | generators/lib/DnnGeneratorBase.js:59-70 | appends the solution creation only when `<namespace>.sln` does not exist |
| SpaGenerator.Generator.RestoreSolution | generators/lib/DnnGeneratorBase.js:90-99 | appends `dotnet restore <namespace>.csproj` in the extension directory |
| SpaGenerator.Generator.AddProjectToSolution | generators/lib/DnnGeneratorBase.js:44-57 | appends `dotnet sln .. add <extensionName>/<namespace>.csproj` |
| SpaGenerator.Generator.InstallDependencies | generators/lib/DnnGeneratorBase.js:72-88 | under `noinstall` nothing changes; else the extension name is defaulted and yarn or npm install is appended |
| SpaGenerator.Generator.CreateYarnWorkspace | generators/lib/DnnGeneratorBase.js:174-215 | appends the workspace and lerna merges only when `_hasYarn()` holds |
| SpaGenerator.Generator.WriteLanguageConfig | generators/spa/index.js:329-360 | appends the language's config and linter copy and returns the dev dependencies with the language's packages spread in |
| SpaGenerator.Generator.WriteReactConfig | generators/spa/index.js:283-363 | appends the React config merges in order |
| SpaGenerator.Generator.WriteLaunchJson | generators/spa/index.js:365-392 | appends the launch.json create-or-append effect |
| SpaGenerator.Generator.WriteReact | generators/spa/index.js:131-392 | appends the React copies, config merges and launch.json effect, in that order |
| SpaGenerator.Generator.WriteAngular | generators/spa/index.js:431-626 | appends the Angular copies, then the `package.json` merge |
| SpaGenerator.Generator.Writing | generators/spa/index.js:93-628 | appends exactly the writing plan of the props' framework and language; props unchanged |
| SpaGenerator.Generator.Install | generators/spa/index.js:630-635 | appends exactly the install plan and leaves the props with the extension name defaulted |

## Left out

- The prompt UI: the `when` conditions, `validate`, choices and stored defaults. The answers are an input record.
- Template rendering: `copyTpl` is recorded with its source and destination, not the files it produces. The template context (author, URLs, dates, `currentYear`) is left out.
- The deep-merge semantics of `extendJSON` on an existing file: only the merged value is recorded.
- The pascal-case package, uuid generation, `which`, `fs.existsSync` and the in-memory file system's `exists`: these are parameters of the model.
- DnnBase.HasYarn: which of `null` or `undefined` the `which` library returns on a miss under `nothrow` is library behaviour outside this model; all three outcomes are inputs and the test is modelled as written.
- Process execution: a spawned command is recorded with its arguments and working directory, and its exit status is not modelled.
- Absolute paths: `destinationRoot("Modules/")`, `destinationPath` and `templatePath` resolution. Paths are kept relative, as the code spells them.
- The asynchronous timing of the launch.json read callback: its write is recorded at the point where `writing()` schedules it.
- A launch.json that is not valid JSON: the parsed value is an input.
- SpaPlan.AppendConfiguration: the in-place `json.configurations.push` is modelled as building the updated value; aliasing of the parsed object is not modelled.
- SpaPlan.AppendConfiguration: when `configurations` is not an array, the TypeError in the callback is modelled as no write.
- JSON key order and `JSON.stringify` formatting: objects are maps.
- JSON numbers are modelled as exact reals: the rounding of JavaScript's double-precision numbers is not modelled. The generator itself writes no numbers; only a parsed launch.json may hold them.
- Logging (chalk, `this.log`, `console.log`), including the missing-MSBuild warnings.
- `end()`: it only logs.
- `_copyCommon` and `_defaultInstall`: the SPA generator never calls them.
- `_writeJsConfig`, `_writeTsConfig` and `_writeBabelRc` are modelled as the JSON values they merge, inside the React plan.
- JsText.ToUpperCase: maps ASCII letters only. Unicode case mapping is not modelled; uuids are ASCII.
- SpaGenerator.Generator.RestoreSolution: the helper's own `extensionName == undefined` test after `_getNamespace()` is not modelled separately, because `_getNamespace()` has already set the name.
- SpaGenerator.Generator.AddProjectToSolution: the same redundant extension-name test is not modelled, for the same reason.
