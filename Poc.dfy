/** The command-line prototype: `pack` reuses or builds the dapp's image and
    runs it in the foreground (`docker run ... -it <image>`), without looking
    for a running container first and without naming the container; `main`
    turns a `--reset` argument into a forced rebuild. Reading the
    configuration file is left to the caller: `pack` here receives it parsed. */
module Poc {
  import opened Wrappers
  import opened Text
  import opened DappConfigSchema
  import opened Engine
  import opened Launcher

  /** The prototype's `docker run` array: no `-d` and no `--name`; the port
      flags come before `-it`. */
  function PackRunTokens(config: DappConfig, imageName: string): seq<string> {
    ["docker", "run"] + PortFlags(Ports(config)) + ["-it", imageName]
  }

  function PackRunCommand(config: DappConfig, imageName: string): string {
    Join(PackRunTokens(config, imageName), ' ')
  }

  function PackRunStep(config: DappConfig, imageName: string): Step {
    Exec(PackRunCommand(config, imageName), true)
  }

  /** The words of the prototype's command: `docker run`, `-p <mapping>` per
      mapping, `-it <image>`. */
  lemma PackRunCommandWords(config: DappConfig, imageName: string)
    ensures PackRunCommand(config, imageName)
      == Join(["docker", "run"] + PortWords(Ports(config)) + ["-it", imageName], ' ')
  {
    var head := ["docker", "run"];
    var tail := ["-it", imageName];
    var ports := Ports(config);
    if |ports| == 0 {
      assert PackRunTokens(config, imageName) == head + tail;
      assert head + PortWords(ports) + tail == head + tail;
    } else {
      JoinPortFlags(ports);
      JoinAppend(head, PortFlags(ports), ' ');
      JoinAppend(head + PortFlags(ports), tail, ' ');
      JoinAppend(head, PortWords(ports), ' ');
      JoinAppend(head + PortWords(ports), tail, ' ');
    }
  }

  /** Unlike the launcher's command, nothing before the image asks for a
      detached or a named container. */
  lemma PackRunIsForegroundAndUnnamed(config: DappConfig, imageName: string)
    ensures var tokens := PackRunTokens(config, imageName);
      "-d" !in tokens[..|tokens| - 1] && "--name" !in tokens[..|tokens| - 1]
  {
    var ports := Ports(config);
    var tokens := PackRunTokens(config, imageName);
    assert tokens[..|tokens| - 1] == ["docker", "run"] + PortFlags(ports) + ["-it"];
    forall i | 0 <= i < |ports| ensures PortFlags(ports)[i] != "-d" && PortFlags(ports)[i] != "--name" {
      assert PortFlags(ports)[i][2] == ' ';
    }
  }

  /** The last step of `pack`: run the image in the foreground. */
  function PackRunTrace(respond: (seq<Step>, Step) -> Reply, log: seq<Step>, config: DappConfig, imageName: string)
    : (Result<()>, seq<Step>)
  {
    var run := PackRunStep(config, imageName);
    match respond(log, run)
    case Fault(e) => (Err(e), log + [run])
    case Done(_) => (Ok(()), log + [run])
  }

  /** The rest of `pack` once the image listing has been read: reuse the
      first listed image unless a reset was asked for, else build, then run. */
  function PackImagesTrace(respond: (seq<Step>, Step) -> Reply, log: seq<Step>, config: DappConfig,
                           existingImages: seq<string>, shouldReset: bool)
    : (Result<()>, seq<Step>)
  {
    if |existingImages| > 0 && !shouldReset then
      PackRunTrace(respond, log, config, existingImages[0])
    else
      var log1 := log + [BuildStep(config)];
      match Built(respond(log, BuildStep(config)), ImageName(config.dapp.uid))
      case Err(e) => (Err(e), log1)
      case Ok(imageName) => PackRunTrace(respond, log1, config, imageName)
  }

  /** What `pack(config, shouldReset)` settles with, and the log after it. */
  function PackTrace(respond: (seq<Step>, Step) -> Reply, log: seq<Step>, config: DappConfig, shouldReset: bool)
    : (Result<()>, seq<Step>)
  {
    var uid := config.dapp.uid;
    match respond(log, ImagesStep(uid))
    case Fault(e) => (Err(e), log + [ImagesStep(uid)])
    case Done(listing) => PackImagesTrace(respond, log + [ImagesStep(uid)], config, ImageList(listing), shouldReset)
  }

  /** The steps after the listing, branch by branch. */
  lemma PackImagesTraceShape(respond: (seq<Step>, Step) -> Reply, log: seq<Step>, config: DappConfig,
                             existingImages: seq<string>, shouldReset: bool)
    ensures var steps := PackImagesTrace(respond, log, config, existingImages, shouldReset).1;
      var built := log + [BuildStep(config)];
      && (|existingImages| > 0 && !shouldReset ==> steps == log + [PackRunStep(config, existingImages[0])])
      && (!(|existingImages| > 0 && !shouldReset) && respond(log, BuildStep(config)).Fault? ==> steps == built)
      && (!(|existingImages| > 0 && !shouldReset) && respond(log, BuildStep(config)).Done? ==>
            steps == built + [PackRunStep(config, ImageName(config.dapp.uid))])
  {
    if |existingImages| > 0 && !shouldReset {
      PackRunTraceShape(respond, log, config, existingImages[0]);
    } else if respond(log, BuildStep(config)).Done? {
      PackRunTraceShape(respond, log + [BuildStep(config)], config, ImageName(config.dapp.uid));
    }
  }

  lemma PackRunTraceShape(respond: (seq<Step>, Step) -> Reply, log: seq<Step>, config: DappConfig, imageName: string)
    ensures PackRunTrace(respond, log, config, imageName).1 == log + [PackRunStep(config, imageName)]
  {
  }

  lemma PackRunCommandPrefix(config: DappConfig, imageName: string)
    ensures |PackRunCommand(config, imageName)| >= 10
    ensures PackRunCommand(config, imageName)[..10] == "docker run"
  {
    var tokens := PackRunTokens(config, imageName);
    assert tokens == ["docker"] + tokens[1..];
    assert tokens[1..] == ["run"] + tokens[2..];
    JoinAppend(["docker"], tokens[1..], ' ');
    JoinAppend(["run"], tokens[2..], ' ');
  }

  /** A `docker ps` query, whatever its filter. */
  predicate QueriesContainers(step: Step) {
    step.Exec? && |step.cmd| >= 9 && step.cmd[..9] == "docker ps"
  }

  lemma PackStepsAreNotContainerQueries(config: DappConfig, imageName: string)
    ensures !QueriesContainers(ImagesStep(config.dapp.uid))
    ensures !QueriesContainers(BuildStep(config))
    ensures !QueriesContainers(PackRunStep(config, imageName))
  {
    assert ImagesCommand(config.dapp.uid)[..9] == "docker im";
    PackRunCommandPrefix(config, imageName);
    var cmd := PackRunCommand(config, imageName);
    assert cmd[..9] == cmd[..10][..9];
  }

  /** `pack` never asks the engine about containers: its first step lists
      images, the others are the build and the run, and no step is a
      `docker ps` command. */
  lemma PackNeverQueriesContainers(respond: (seq<Step>, Step) -> Reply, log: seq<Step>, config: DappConfig, shouldReset: bool)
    ensures var steps := PackTrace(respond, log, config, shouldReset).1;
      && |log| < |steps| <= |log| + 3
      && steps[..|log|] == log
      && steps[|log|] == ImagesStep(config.dapp.uid)
      && forall i :: |log| <= i < |steps| ==>
           !QueriesContainers(steps[i]) && (steps[i].Build? ==> steps[i] == BuildStep(config))
  {
    var uid := config.dapp.uid;
    var log1 := log + [ImagesStep(uid)];
    PackStepsAreNotContainerQueries(config, "");
    if respond(log, ImagesStep(uid)).Done? {
      var existingImages := ImageList(respond(log, ImagesStep(uid)).stdout);
      PackReachesImages(respond, log, config, shouldReset);
      PackImagesTraceInvariants(respond, log1, config, existingImages, shouldReset);
      var steps := PackImagesTrace(respond, log1, config, existingImages, shouldReset).1;
      assert steps[..|log|] == steps[..|log1|][..|log|];
      assert steps[|log|] == log1[|log|];
    }
  }

  /** After the listing `pack` takes at most a build and a run, and neither
      is a `docker ps` query. */
  lemma PackImagesTraceInvariants(respond: (seq<Step>, Step) -> Reply, log: seq<Step>, config: DappConfig,
                                  existingImages: seq<string>, shouldReset: bool)
    ensures var steps := PackImagesTrace(respond, log, config, existingImages, shouldReset).1;
      && |log| < |steps| <= |log| + 2
      && steps[..|log|] == log
      && forall i :: |log| <= i < |steps| ==>
           !QueriesContainers(steps[i]) && (steps[i].Build? ==> steps[i] == BuildStep(config))
  {
    var steps := PackImagesTrace(respond, log, config, existingImages, shouldReset).1;
    PackImagesTraceShape(respond, log, config, existingImages, shouldReset);
    var reuse := |existingImages| > 0 && !shouldReset;
    var image := if reuse then existingImages[0] else ImageName(config.dapp.uid);
    PackStepsAreNotContainerQueries(config, image);
    var tail :=
      if reuse then [PackRunStep(config, image)]
      else if respond(log, BuildStep(config)).Fault? then [BuildStep(config)]
      else [BuildStep(config), PackRunStep(config, image)];
    assert steps == log + tail;
    forall i | |log| <= i < |steps|
      ensures !QueriesContainers(steps[i]) && (steps[i].Build? ==> steps[i] == BuildStep(config))
    {
      assert steps[i] == tail[i - |log|];
    }
  }

  /** With a readable listing, `pack` goes on as `PackImagesTrace` after it. */
  lemma PackReachesImages(respond: (seq<Step>, Step) -> Reply, log: seq<Step>, config: DappConfig, shouldReset: bool)
    requires respond(log, ImagesStep(config.dapp.uid)).Done?
    ensures PackTrace(respond, log, config, shouldReset)
      == PackImagesTrace(respond, log + [ImagesStep(config.dapp.uid)], config,
                         ImageList(respond(log, ImagesStep(config.dapp.uid)).stdout), shouldReset)
  {
  }

  /** With a readable listing, an existing image is reused if and only if the
      listing is non-empty and no reset was asked for; then the first listed
      image is run. Otherwise the builder is invoked with `dapp-packer/<uid>`
      and, when it succeeds, that image is run. */
  lemma PackReusesIffImagesAndNoReset(respond: (seq<Step>, Step) -> Reply, log: seq<Step>, config: DappConfig, shouldReset: bool)
    requires respond(log, ImagesStep(config.dapp.uid)).Done?
    ensures var listing := respond(log, ImagesStep(config.dapp.uid)).stdout;
      var reuse := |ImageList(listing)| > 0 && !shouldReset;
      var steps := PackTrace(respond, log, config, shouldReset).1;
      && |steps| == |log| + (if reuse then 2 else if respond(log + [ImagesStep(config.dapp.uid)], BuildStep(config)).Fault? then 2 else 3)
      && (reuse <==> steps[|log| + 1] != BuildStep(config))
      && (reuse ==> steps[|log| + 1] == PackRunStep(config, ImageList(listing)[0]))
      && (!reuse && |steps| == |log| + 3 ==> steps[|log| + 2] == PackRunStep(config, ImageName(config.dapp.uid)))
  {
    var uid := config.dapp.uid;
    var existingImages := ImageList(respond(log, ImagesStep(uid)).stdout);
    PackReachesImages(respond, log, config, shouldReset);
    PackImagesTraceReuse(respond, log + [ImagesStep(uid)], config, existingImages, shouldReset);
  }

  lemma PackImagesTraceReuse(respond: (seq<Step>, Step) -> Reply, log: seq<Step>, config: DappConfig,
                             existingImages: seq<string>, shouldReset: bool)
    ensures var reuse := |existingImages| > 0 && !shouldReset;
      var steps := PackImagesTrace(respond, log, config, existingImages, shouldReset).1;
      && |steps| == |log| + (if reuse then 1 else if respond(log, BuildStep(config)).Fault? then 1 else 2)
      && (reuse <==> steps[|log|] != BuildStep(config))
      && (reuse ==> steps[|log|] == PackRunStep(config, existingImages[0]))
      && (!reuse && |steps| == |log| + 2 ==> steps[|log| + 1] == PackRunStep(config, ImageName(config.dapp.uid)))
  {
    PackImagesTraceShape(respond, log, config, existingImages, shouldReset);
  }

  /** `process.argv.some((arg) => arg.trim() === '--reset')` */
  function ShouldReset(argv: seq<string>): (reset: bool)
    ensures reset <==> exists i :: 0 <= i < |argv| && Trim(argv[i]) == "--reset"
  {
    if |argv| == 0 then false
    else Trim(argv[0]) == "--reset" || ShouldReset(argv[1..])
  }

  /** `pack(configPath, shouldReset)`, given the configuration it reads. */
  method Pack(sh: Shell, config: DappConfig, shouldReset: bool) returns (r: Result<()>)
    modifies sh
    ensures (r, sh.log) == PackTrace(sh.respond, old(sh.log), config, shouldReset)
  {
    var listing := sh.ExecSync(ImagesCommand(config.dapp.uid));
    if listing.Err? {
      return Err(listing.error);
    }
    var existingImages := ImageList(listing.value);
    var imageName: string;
    if |existingImages| > 0 && !shouldReset {
      imageName := existingImages[0];
    } else {
      var built := BuildDockerImage(sh, config);
      if built.Err? {
        return Err(built.error);
      }
      imageName := built.value;
    }
    var ran := sh.ExecSyncInherited(PackRunCommand(config, imageName));
    if ran.Err? {
      return Err(ran.error);
    }
    r := Ok(());
  }
}
