/** The observable effects of a generator run, recorded in order as a trace.
    Paths are the strings the generator passes to `templatePath` and
    `destinationPath`, relative to the template and destination roots. */
module Effects {
  import opened Wrappers
  import opened JsonValue

  datatype Effect =
      /** `this.fs.copyTpl(templatePath(from), destinationPath(to), template)` */
    | CopyTpl(from: string, to: string)
      /** `this.fs.extendJSON(destinationPath(path), value)`: deep-merge into the file */
    | ExtendJson(path: string, value: Json)
      /** `fs.writeFileSync(path, JSON.stringify(value, null, 2))`: overwrite the file */
    | WriteJson(path: string, value: Json)
      /** `this.spawnCommandSync(command, args, { cwd })` */
    | Spawn(command: string, args: seq<string>, cwd: Option<string>)
  {
    /** Whether this effect writes a file (rather than running a process). */
    predicate WritesFile() {
      !Spawn?
    }

    /** The destination path a file effect writes. */
    function Target(): string
      requires WritesFile()
    {
      match this
      case CopyTpl(_, to) => to
      case ExtendJson(path, _) => path
      case WriteJson(path, _) => path
    }
  }
}
