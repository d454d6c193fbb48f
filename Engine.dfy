/** The outside world the launcher drives: the container engine's command
    line (reached through `execSync`) and the image builder (`buildImage`,
    after the source is cloned into a scratch directory). The engine's answers
    are a fixed function of the steps taken so far, so a run of the launcher
    is fully described by the log of steps it takes. */
module Engine {
  import opened Wrappers

  /** One external step. `Exec` runs a shell command; `inheritStdio` says
      whether its output goes straight to the terminal (`stdio: 'inherit'`)
      instead of being captured. `Build` clones `repository` at `tag`, writes
      the configuration into the clone and builds an image named `imageName`
      from it. */
  datatype Step =
    | Exec(cmd: string, inheritStdio: bool)
    | Build(imageName: string, repository: string, tag: Option<string>)

  /** The outcome of a step: it finished, printing `stdout`, or it failed
      (non-zero exit status, failed clone, failed build). */
  datatype Reply = Done(stdout: string) | Fault(cause: string)

  /** What `execSync` hands back for a captured command: the output text,
      or a thrown error. */
  function Captured(reply: Reply): Result<string> {
    match reply
    case Done(out) => Ok(out)
    case Fault(e) => Err(e)
  }

  /** What `execSync` hands back for a command run with inherited stdio: no
      output is captured, so on success the value is `null` (None here). */
  function Inherited(reply: Reply): Result<Option<string>> {
    match reply
    case Done(_) => Ok(None)
    case Fault(e) => Err(e)
  }

  /** What the builder hands back: the requested image name on success
      (the native builder returns the name it was given). */
  function Built(reply: Reply, imageName: string): Result<string> {
    match reply
    case Done(_) => Ok(imageName)
    case Fault(e) => Err(e)
  }

  class Shell {
    /** The engine's reply to a step, given the steps taken before it. */
    const respond: (seq<Step>, Step) -> Reply
    /** Every step taken so far, oldest first. */
    var log: seq<Step>

    constructor (respond: (seq<Step>, Step) -> Reply)
      ensures this.respond == respond && log == []
    {
      this.respond := respond;
      log := [];
    }

    /** `execSync(cmd).toString('utf-8')` */
    method ExecSync(cmd: string) returns (r: Result<string>)
      modifies this
      ensures log == old(log) + [Exec(cmd, false)]
      ensures r == Captured(respond(old(log), Exec(cmd, false)))
    {
      r := Captured(respond(log, Exec(cmd, false)));
      log := log + [Exec(cmd, false)];
    }

    /** `execSync(cmd, { stdio: 'inherit' })` */
    method ExecSyncInherited(cmd: string) returns (r: Result<Option<string>>)
      modifies this
      ensures log == old(log) + [Exec(cmd, true)]
      ensures r == Inherited(respond(old(log), Exec(cmd, true)))
    {
      r := Inherited(respond(log, Exec(cmd, true)));
      log := log + [Exec(cmd, true)];
    }

    /** Clone, write the configuration, then `buildImage(imageName, repoPath)`. */
    method BuildImage(imageName: string, repository: string, tag: Option<string>) returns (r: Result<string>)
      modifies this
      ensures log == old(log) + [Build(imageName, repository, tag)]
      ensures r == Built(respond(old(log), Build(imageName, repository, tag)), imageName)
    {
      r := Built(respond(log, Build(imageName, repository, tag)), imageName);
      log := log + [Build(imageName, repository, tag)];
    }
  }
}
