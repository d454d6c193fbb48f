/** The desktop app's launcher: derived image and container names, the
    parsing of `docker ps` and `docker images` output, and `buildAndRun`,
    which returns at once when the dapp's container is running, otherwise
    reuses or builds the dapp's image and starts a detached, named container
    from it. */
module Launcher {
  import opened Wrappers
  import opened Text
  import opened DappConfigSchema
  import opened Engine

  // ---------------------------------------------------------------------
  // Derived names

  const ImagePrefix: string := "dapp-packer/"
  const ContainerPrefix: string := "dapp-packer-container__"

  function ImageName(dappUid: string): string {
    ImagePrefix + dappUid
  }

  function ContainerName(dappUid: string): string {
    ContainerPrefix + dappUid
  }

  /** Distinct uids give distinct image names. */
  lemma ImageNameInjective(a: string, b: string)
    requires ImageName(a) == ImageName(b)
    ensures a == b
  {
    assert a == ImageName(a)[|ImagePrefix|..];
    assert b == ImageName(b)[|ImagePrefix|..];
  }

  /** Distinct uids give distinct container names. */
  lemma ContainerNameInjective(a: string, b: string)
    requires ContainerName(a) == ContainerName(b)
    ensures a == b
  {
    assert a == ContainerName(a)[|ContainerPrefix|..];
    assert b == ContainerName(b)[|ContainerPrefix|..];
  }

  /** No image name is a container name: the prefixes part at their twelfth
      character, `/` against `-`. */
  lemma ImageNameNeverContainerName(a: string, b: string)
    ensures ImageName(a) != ContainerName(b)
  {
    assert ImageName(a)[11] == '/';
    assert ContainerName(b)[11] == '-';
  }

  /** `http://localhost:${config.dapp.httpPort}` */
  function DappUrl(config: DappConfig): string {
    "http://localhost:" + IntToString(config.dapp.httpPort)
  }

  /** The URL is the fixed loopback prefix followed by the port in
      decimal: a run of digits that reads back as the port, preceded by `-`
      when the port is negative (the schema accepts any number). */
  lemma DappUrlNamesPort(config: DappConfig)
    ensures var url := DappUrl(config);
      |url| > 17 && url[..17] == "http://localhost:"
    ensures var url, port := DappUrl(config), config.dapp.httpPort;
      port >= 0 ==>
        && (forall i :: 17 <= i < |url| ==> IsDigit(url[i]))
        && DecimalValue(url[17..]) == port
    ensures var url, port := DappUrl(config), config.dapp.httpPort;
      port < 0 ==>
        && |url| > 18 && url[17] == '-'
        && (forall i :: 18 <= i < |url| ==> IsDigit(url[i]))
        && DecimalValue(url[18..]) == -port
  {
    var url := DappUrl(config);
    var port := config.dapp.httpPort;
    if port >= 0 {
      NatToStringRoundTrip(port);
      assert url[17..] == NatToString(port);
      forall i | 17 <= i < |url| ensures IsDigit(url[i]) {
        assert url[i] == url[17..][i - 17];
      }
    } else {
      NatToStringRoundTrip(-port);
      assert url[18..] == NatToString(-port);
      forall i | 18 <= i < |url| ensures IsDigit(url[i]) {
        assert url[i] == url[18..][i - 18];
      }
    }
  }

  // ---------------------------------------------------------------------
  // Reading the engine's table output

  /** `docker ps --filter name=<container name>` */
  function PsCommand(dappUid: string): string {
    "docker ps --filter name=" + ContainerName(dappUid)
  }

  /** `docker images <image name>` */
  function ImagesCommand(dappUid: string): string {
    "docker images " + ImageName(dappUid)
  }

  /** `out.trim().split('\n')`: the lines of a table, header first. */
  function Lines(out: string): seq<string> {
    Split(Trim(out), '\n')
  }

  /** The rows of the `docker ps` table: the lines after the header. */
  function ContainerRows(out: string): seq<string> {
    Lines(out)[1..]
  }

  /** `isDappContainerRunning`'s verdict on the `docker ps` output. */
  predicate ContainerListed(out: string) {
    |ContainerRows(out)| > 0
  }

  /** The engine reports the container as running exactly when the trimmed
      output spans more than one line; empty or blank output never does. */
  lemma ContainerListedIffMultiline(out: string)
    ensures ContainerListed(out) <==> '\n' in Trim(out)
    ensures AllSpace(out) ==> !ContainerListed(out)
  {
    SplitLength(Trim(out), '\n');
    CountPositive(Trim(out), '\n');
  }

  /** `out.trim().split('\n').map(line => line.split(/\s+/)[0]).slice(1)`:
      the first column of every row after the header. */
  function ImageList(out: string): seq<string> {
    var lines := Lines(out);
    seq(|lines|, i requires 0 <= i < |lines| => FirstField(lines[i]))[1..]
  }

  /** There is one entry per line after the header of the trimmed output,
      and each entry is the white-space-free start of its line, cut at the
      first white space. */
  lemma ImageListShape(out: string)
    ensures |ImageList(out)| == Count(Trim(out), '\n')
    ensures |ImageList(out)| == 0 <==> '\n' !in Trim(out)
    ensures forall i :: 0 <= i < |ImageList(out)| ==>
      var line, entry := Lines(out)[i + 1], ImageList(out)[i];
      && entry == line[..|entry|]
      && NoSpace(entry)
      && (|entry| < |line| ==> IsSpace(line[|entry|]))
  {
    SplitLength(Trim(out), '\n');
    CountPositive(Trim(out), '\n');
  }

  // ---------------------------------------------------------------------
  // The `docker run` command

  /** `config.dapp.ports || []` */
  function Ports(config: DappConfig): seq<string> {
    config.dapp.ports.GetOr([])
  }

  /** `exposePorts.map((port) => `-p ${port}`)` */
  function PortFlags(ports: seq<string>): seq<string> {
    seq(|ports|, i requires 0 <= i < |ports| => "-p " + ports[i])
  }

  /** The array the launcher joins into its `docker run` command. */
  function RunTokens(config: DappConfig, imageName: string): seq<string> {
    ["docker", "run", "-d"] + PortFlags(Ports(config))
      + ["--name", ContainerName(config.dapp.uid), imageName]
  }

  /** The command string handed to the shell. */
  function RunCommand(config: DappConfig, imageName: string): string {
    Join(RunTokens(config, imageName), ' ')
  }

  /** `-p` and the mapping as two separate words, for every mapping in order. */
  function PortWords(ports: seq<string>): seq<string> {
    if |ports| == 0 then [] else ["-p", ports[0]] + PortWords(ports[1..])
  }

  /** The argument words the `docker run` command is meant to carry:
      `docker run -d`, `-p <mapping>` per mapping, `--name <container> <image>`. */
  function RunWords(config: DappConfig, imageName: string): seq<string> {
    ["docker", "run", "-d"] + PortWords(Ports(config))
      + ["--name", ContainerName(config.dapp.uid), imageName]
  }

  lemma {:induction false} JoinPortFlags(ports: seq<string>)
    requires |ports| >= 1
    ensures |PortWords(ports)| >= 1
    ensures Join(PortFlags(ports), ' ') == Join(PortWords(ports), ' ')
  {
    assert PortFlags(ports) == ["-p " + ports[0]] + PortFlags(ports[1..]);
    if |ports| == 1 {
      assert PortWords(ports) == ["-p", ports[0]];
    } else {
      JoinPortFlags(ports[1..]);
      JoinAppend(["-p " + ports[0]], PortFlags(ports[1..]), ' ');
      JoinAppend(["-p", ports[0]], PortWords(ports[1..]), ' ');
    }
  }

  /** The joined command is the intended words separated by single spaces. */
  lemma RunCommandIsJoinedWords(config: DappConfig, imageName: string)
    ensures RunCommand(config, imageName) == Join(RunWords(config, imageName), ' ')
  {
    var head := ["docker", "run", "-d"];
    var tail := ["--name", ContainerName(config.dapp.uid), imageName];
    var ports := Ports(config);
    if |ports| == 0 {
      assert RunTokens(config, imageName) == head + tail;
      assert RunWords(config, imageName) == head + tail;
    } else {
      JoinPortFlags(ports);
      JoinAppend(head, PortFlags(ports), ' ');
      JoinAppend(head + PortFlags(ports), tail, ' ');
      JoinAppend(head, PortWords(ports), ' ');
      JoinAppend(head + PortWords(ports), tail, ' ');
    }
  }

  lemma {:induction false} PortWordsMembers(ports: seq<string>)
    ensures forall w :: w in PortWords(ports) <==> (w == "-p" && |ports| > 0) || w in ports
  {
    if |ports| > 0 {
      PortWordsMembers(ports[1..]);
      assert ports == [ports[0]] + ports[1..];
    }
  }

  /** Splitting the command on spaces yields exactly the intended words if
      and only if the uid, the image name and every mapping are free of
      spaces. The uid is interpolated unchecked, so a uid with a space in it
      adds words to the command. */
  lemma RunCommandSplitsIntoWords(config: DappConfig, imageName: string)
    ensures Split(RunCommand(config, imageName), ' ') == RunWords(config, imageName)
      <==> (' ' !in config.dapp.uid && ' ' !in imageName
            && forall i :: 0 <= i < |Ports(config)| ==> ' ' !in Ports(config)[i])
  {
    var words := RunWords(config, imageName);
    var ports := Ports(config);
    RunCommandIsJoinedWords(config, imageName);
    PortWordsMembers(ports);
    assert ' ' in config.dapp.uid ==> ' ' in ContainerName(config.dapp.uid);
    assert ' ' !in config.dapp.uid ==> ' ' !in ContainerName(config.dapp.uid);
    assert ContainerName(config.dapp.uid) == words[|words| - 2];
    assert imageName == words[|words| - 1];
    var clean := ' ' !in config.dapp.uid && ' ' !in imageName
      && forall i :: 0 <= i < |ports| ==> ' ' !in ports[i];
    if clean {
      forall i | 0 <= i < |words| ensures ' ' !in words[i] {
        assert words[i] in words;
        if 3 <= i < |words| - 3 {
          assert words[i] in PortWords(ports);
        }
      }
      SplitJoin(words, ' ');
    } else if exists i :: 0 <= i < |ports| && ' ' in ports[i] {
      var i :| 0 <= i < |ports| && ' ' in ports[i];
      assert ports[i] in PortWords(ports);
      var j :| 0 <= j < |PortWords(ports)| && PortWords(ports)[j] == ports[i];
      assert words[3 + j] == ports[i];
    }
  }

  lemma {:induction false} PortWordsLength(ports: seq<string>)
    ensures |PortWords(ports)| == 2 * |ports|
  {
    if |ports| > 0 {
      PortWordsLength(ports[1..]);
    }
  }

  /** For a configuration the schema accepts, the command splits into
      `docker run -d` followed by exactly the two words `-p` and the mapping
      per mapping, whatever the uid and the image name hold; when those are
      free of spaces too, it splits into exactly the intended words. */
  lemma ValidConfigRunWords(config: DappConfig, imageName: string)
    requires ValidDappConfig(config)
    ensures var pieces := Split(RunCommand(config, imageName), ' ');
      var n := 3 + 2 * |Ports(config)|;
      |pieces| > n && pieces[..n] == ["docker", "run", "-d"] + PortWords(Ports(config))
    ensures ' ' !in config.dapp.uid && ' ' !in imageName
      ==> Split(RunCommand(config, imageName), ' ') == RunWords(config, imageName)
  {
    var ports := Ports(config);
    forall i | 0 <= i < |ports| ensures ' ' !in ports[i] {
      PortMappingAlphabet(ports[i]);
    }
    RunCommandSplitsIntoWords(config, imageName);
    var head := ["docker", "run", "-d"] + PortWords(ports);
    var tail := ["--name", ContainerName(config.dapp.uid), imageName];
    PortWordsLength(ports);
    PortWordsMembers(ports);
    forall i | 0 <= i < |head| ensures ' ' !in head[i] {
      if i >= 3 {
        assert head[i] in PortWords(ports);
      }
    }
    RunCommandIsJoinedWords(config, imageName);
    assert RunWords(config, imageName) == head + tail;
    JoinAppend(head, tail, ' ');
    SplitJoinPrefix(head, Join(tail, ' '), ' ');
    var pieces := head + Split(Join(tail, ' '), ' ');
    assert pieces[..|head|] == head;
  }

  // ---------------------------------------------------------------------
  // buildAndRun, as the sequence of steps it takes

  function PsStep(dappUid: string): Step {
    Exec(PsCommand(dappUid), false)
  }

  function ImagesStep(dappUid: string): Step {
    Exec(ImagesCommand(dappUid), false)
  }

  /** `buildDockerImage` hands the builder `getImageName(uid)`. */
  function BuildStep(config: DappConfig): Step {
    Build(ImageName(config.dapp.uid), config.dapp.repository, config.dapp.tag)
  }

  function RunStep(config: DappConfig, imageName: string): Step {
    Exec(RunCommand(config, imageName), true)
  }

  /** The last step: start the container and, if that succeeds, settle with
      the dapp's URL. */
  function RunTrace(respond: (seq<Step>, Step) -> Reply, log: seq<Step>, config: DappConfig, imageName: string)
    : (Result<string>, seq<Step>)
  {
    var run := RunStep(config, imageName);
    match respond(log, run)
    case Fault(e) => (Err(e), log + [run])
    case Done(_) => (Ok(DappUrl(config)), log + [run])
  }

  /** The rest of the launch once the image listing has been read: reuse the
      first listed image unless a reset was asked for, else build, then run. */
  function ImagesTrace(respond: (seq<Step>, Step) -> Reply, log: seq<Step>, config: DappConfig,
                       existingImages: seq<string>, shouldReset: bool)
    : (Result<string>, seq<Step>)
  {
    if |existingImages| > 0 && !shouldReset then
      RunTrace(respond, log, config, existingImages[0])
    else
      var log1 := log + [BuildStep(config)];
      match Built(respond(log, BuildStep(config)), ImageName(config.dapp.uid))
      case Err(e) => (Err(e), log1)
      case Ok(imageName) => RunTrace(respond, log1, config, imageName)
  }

  /** What `buildAndRun(config, shouldReset)` settles with, and the log after
      it, starting from `log`. Every engine or builder failure rejects the
      promise with that failure and stops there. */
  function BuildAndRunTrace(respond: (seq<Step>, Step) -> Reply, log: seq<Step>, config: DappConfig, shouldReset: bool)
    : (Result<string>, seq<Step>)
  {
    var uid := config.dapp.uid;
    var log1 := log + [PsStep(uid)];
    match respond(log, PsStep(uid))
    case Fault(e) => (Err(e), log1)
    case Done(ps) =>
      if ContainerListed(ps) then (Ok(DappUrl(config)), log1)
      else
        var log2 := log1 + [ImagesStep(uid)];
        match respond(log1, ImagesStep(uid))
        case Fault(e) => (Err(e), log2)
        case Done(listing) => ImagesTrace(respond, log2, config, ImageList(listing), shouldReset)
  }

  /** The steps after the listing: the first listed image is run when one
      exists and no reset was asked for; otherwise the builder is handed
      `getImageName(uid)` and, when it succeeds, that image is run. A
      fulfilled result is the dapp's URL. */
  lemma ImagesTraceShape(respond: (seq<Step>, Step) -> Reply, log: seq<Step>, config: DappConfig,
                         existingImages: seq<string>, shouldReset: bool)
    ensures var (r, steps) := ImagesTrace(respond, log, config, existingImages, shouldReset);
      var built := log + [BuildStep(config)];
      && (|existingImages| > 0 && !shouldReset ==> steps == log + [RunStep(config, existingImages[0])])
      && (!(|existingImages| > 0 && !shouldReset) && respond(log, BuildStep(config)).Fault? ==> steps == built)
      && (!(|existingImages| > 0 && !shouldReset) && respond(log, BuildStep(config)).Done? ==>
            steps == built + [RunStep(config, ImageName(config.dapp.uid))])
      && (r.Ok? ==> r.value == DappUrl(config))
  {
    if |existingImages| > 0 && !shouldReset {
      RunTraceShape(respond, log, config, existingImages[0]);
    } else if respond(log, BuildStep(config)).Done? {
      RunTraceShape(respond, log + [BuildStep(config)], config, ImageName(config.dapp.uid));
    }
  }

  /** A running container short-cuts everything: one `docker ps`, then the
      URL; no image listing, no build, no `docker run`. */
  lemma RunningContainerReturnsUrl(respond: (seq<Step>, Step) -> Reply, log: seq<Step>, config: DappConfig, shouldReset: bool)
    requires respond(log, PsStep(config.dapp.uid)).Done?
    requires ContainerListed(respond(log, PsStep(config.dapp.uid)).stdout)
    ensures BuildAndRunTrace(respond, log, config, shouldReset) == (Ok(DappUrl(config)), log + [PsStep(config.dapp.uid)])
  {
  }

  /** When the engine cannot be queried, the launch fails with the engine's
      error before anything else is done. */
  lemma EngineFailureRejects(respond: (seq<Step>, Step) -> Reply, log: seq<Step>, config: DappConfig, shouldReset: bool)
    requires respond(log, PsStep(config.dapp.uid)).Fault?
    ensures BuildAndRunTrace(respond, log, config, shouldReset)
      == (Err(respond(log, PsStep(config.dapp.uid)).cause), log + [PsStep(config.dapp.uid)])
  {
  }

  /** With no running container and a readable image listing, the builder
      is invoked if and only if the listing is empty or a reset was asked
      for; otherwise the container is started from the first listed image. */
  lemma BuildsIffNoImageOrReset(respond: (seq<Step>, Step) -> Reply, log: seq<Step>, config: DappConfig, shouldReset: bool)
    requires respond(log, PsStep(config.dapp.uid)).Done?
    requires !ContainerListed(respond(log, PsStep(config.dapp.uid)).stdout)
    requires respond(log + [PsStep(config.dapp.uid)], ImagesStep(config.dapp.uid)).Done?
    ensures var listing := respond(log + [PsStep(config.dapp.uid)], ImagesStep(config.dapp.uid)).stdout;
      var steps := BuildAndRunTrace(respond, log, config, shouldReset).1;
      && |steps| >= |log| + 3
      && steps[..|log| + 2] == log + [PsStep(config.dapp.uid), ImagesStep(config.dapp.uid)]
      && (steps[|log| + 2] == BuildStep(config) <==> |ImageList(listing)| == 0 || shouldReset)
      && (|ImageList(listing)| > 0 && !shouldReset ==>
            steps == log + [PsStep(config.dapp.uid), ImagesStep(config.dapp.uid), RunStep(config, ImageList(listing)[0])])
  {
    var uid := config.dapp.uid;
    var log2 := log + [PsStep(uid), ImagesStep(uid)];
    var existingImages := ImageList(respond(log + [PsStep(uid)], ImagesStep(uid)).stdout);
    ReachesImages(respond, log, config, shouldReset);
    ImagesTraceBuilds(respond, log2, config, existingImages, shouldReset);
  }

  /** With no running container and a readable listing, the launch goes on
      as `ImagesTrace` after the two queries. */
  lemma ReachesImages(respond: (seq<Step>, Step) -> Reply, log: seq<Step>, config: DappConfig, shouldReset: bool)
    requires respond(log, PsStep(config.dapp.uid)).Done?
    requires !ContainerListed(respond(log, PsStep(config.dapp.uid)).stdout)
    requires respond(log + [PsStep(config.dapp.uid)], ImagesStep(config.dapp.uid)).Done?
    ensures BuildAndRunTrace(respond, log, config, shouldReset)
      == ImagesTrace(respond, log + [PsStep(config.dapp.uid), ImagesStep(config.dapp.uid)], config,
                     ImageList(respond(log + [PsStep(config.dapp.uid)], ImagesStep(config.dapp.uid)).stdout), shouldReset)
  {
    assert log + [PsStep(config.dapp.uid)] + [ImagesStep(config.dapp.uid)]
      == log + [PsStep(config.dapp.uid), ImagesStep(config.dapp.uid)];
  }

  lemma ImagesTraceBuilds(respond: (seq<Step>, Step) -> Reply, log: seq<Step>, config: DappConfig,
                          existingImages: seq<string>, shouldReset: bool)
    ensures var steps := ImagesTrace(respond, log, config, existingImages, shouldReset).1;
      && |steps| >= |log| + 1
      && steps[..|log|] == log
      && (steps[|log|] == BuildStep(config) <==> |existingImages| == 0 || shouldReset)
      && (|existingImages| > 0 && !shouldReset ==> steps == log + [RunStep(config, existingImages[0])])
  {
    ImagesTraceShape(respond, log, config, existingImages, shouldReset);
  }

  /** The shape every launch has from `log` on: the log only grows, by at
      most `extra` steps; the builder is only handed `getImageName(uid)`; a
      step with inherited output is the last one and starts `RunCommand`;
      and a fulfilled launch yields the dapp's URL. */
  ghost predicate LaunchShape(config: DappConfig, log: seq<Step>, extra: nat, r: Result<string>, steps: seq<Step>) {
    && |log| <= |steps| <= |log| + extra
    && steps[..|log|] == log
    && (forall i :: |log| <= i < |steps| && steps[i].Build? ==> steps[i] == BuildStep(config))
    && (forall i :: |log| <= i < |steps| && steps[i].Exec? && steps[i].inheritStdio ==>
          i == |steps| - 1 && exists image :: steps[i] == RunStep(config, image))
    && (r.Ok? ==> r.value == DappUrl(config))
  }

  lemma ImagesTraceInvariants(respond: (seq<Step>, Step) -> Reply, log: seq<Step>, config: DappConfig,
                              existingImages: seq<string>, shouldReset: bool)
    ensures var (r, steps) := ImagesTrace(respond, log, config, existingImages, shouldReset);
      |steps| > |log| && LaunchShape(config, log, 2, r, steps)
  {
    var (r, steps) := ImagesTrace(respond, log, config, existingImages, shouldReset);
    ImagesTraceShape(respond, log, config, existingImages, shouldReset);
    var reuse := |existingImages| > 0 && !shouldReset;
    var image := if reuse then existingImages[0] else ImageName(config.dapp.uid);
    var tail :=
      if reuse then [RunStep(config, image)]
      else if respond(log, BuildStep(config)).Fault? then [BuildStep(config)]
      else [BuildStep(config), RunStep(config, image)];
    assert steps == log + tail;
    forall i | |log| <= i < |steps|
      ensures steps[i].Build? ==> steps[i] == BuildStep(config)
      ensures steps[i].Exec? && steps[i].inheritStdio ==> i == |steps| - 1 && steps[i] == RunStep(config, image)
    {
      assert steps[i] == tail[i - |log|];
    }
  }

  /** Whatever branch is taken: the launch only appends to the log, starting
      with the `docker ps` query and adding at most four steps; the builder is
      only ever handed `getImageName(uid)`; a `docker run` is the last step
      taken and starts `RunCommand`; and a fulfilled launch yields the dapp's
      URL. */
  lemma BuildAndRunInvariants(respond: (seq<Step>, Step) -> Reply, log: seq<Step>, config: DappConfig, shouldReset: bool)
    ensures var (r, steps) := BuildAndRunTrace(respond, log, config, shouldReset);
      && |steps| > |log|
      && steps[|log|] == PsStep(config.dapp.uid)
      && LaunchShape(config, log, 4, r, steps)
  {
    var uid := config.dapp.uid;
    var log1 := log + [PsStep(uid)];
    var log2 := log1 + [ImagesStep(uid)];
    match respond(log, PsStep(uid))
    case Fault(_) =>
    case Done(ps) =>
      if !ContainerListed(ps) {
        match respond(log1, ImagesStep(uid))
        case Fault(_) =>
        case Done(listing) =>
          var existingImages := ImageList(listing);
          var (r, steps) := ImagesTrace(respond, log2, config, existingImages, shouldReset);
          assert BuildAndRunTrace(respond, log, config, shouldReset) == (r, steps);
          ImagesTraceInvariants(respond, log2, config, existingImages, shouldReset);
          ShapeExtends(config, log, log2, r, steps);
      }
  }

  /** A launch shape from a longer log that starts with `log` and two
      non-build, captured steps is a launch shape from `log`. */
  lemma ShapeExtends(config: DappConfig, log: seq<Step>, log2: seq<Step>, r: Result<string>, steps: seq<Step>)
    requires log2 == log + [PsStep(config.dapp.uid), ImagesStep(config.dapp.uid)]
    requires LaunchShape(config, log2, 2, r, steps)
    ensures LaunchShape(config, log, 4, r, steps)
    ensures steps[|log|] == PsStep(config.dapp.uid)
  {
    assert steps[..|log|] == steps[..|log2|][..|log|];
    forall i | |log| <= i < |log2|
      ensures !steps[i].Build? && !(steps[i].Exec? && steps[i].inheritStdio)
    {
      assert steps[i] == log2[i];
    }
    assert steps[|log|] == log2[|log|];
  }

  lemma RunTraceShape(respond: (seq<Step>, Step) -> Reply, log: seq<Step>, config: DappConfig, imageName: string)
    ensures RunTrace(respond, log, config, imageName).1 == log + [RunStep(config, imageName)]
    ensures RunTrace(respond, log, config, imageName).0.Ok? ==>
      RunTrace(respond, log, config, imageName).0.value == DappUrl(config)
  {
  }

  // ---------------------------------------------------------------------
  // The launcher's methods over the shell

  /** `isDappContainerRunning(dappUid)` */
  method IsDappContainerRunning(sh: Shell, dappUid: string) returns (r: Result<bool>)
    modifies sh
    ensures sh.log == old(sh.log) + [PsStep(dappUid)]
    ensures r == match sh.respond(old(sh.log), PsStep(dappUid))
      case Fault(e) => Err(e)
      case Done(out) => Ok(ContainerListed(out))
  {
    var containers := sh.ExecSync(PsCommand(dappUid));
    if containers.Err? {
      return Err(containers.error);
    }
    r := Ok(ContainerListed(containers.value));
  }

  /** `buildDockerImage(config)`: the builder gets `getImageName(uid)` and the
      dapp's repository and tag, and its result is passed on. */
  method BuildDockerImage(sh: Shell, config: DappConfig) returns (r: Result<string>)
    modifies sh
    ensures sh.log == old(sh.log) + [BuildStep(config)]
    ensures r == Built(sh.respond(old(sh.log), BuildStep(config)), ImageName(config.dapp.uid))
  {
    r := sh.BuildImage(ImageName(config.dapp.uid), config.dapp.repository, config.dapp.tag);
  }

  /** `buildAndRun(config, shouldReset)`, with the result of `docker run`
      discarded (see `RunOutputAsWritten` for the line as written). */
  method BuildAndRun(sh: Shell, config: DappConfig, shouldReset: bool) returns (r: Result<string>)
    modifies sh
    ensures (r, sh.log) == BuildAndRunTrace(sh.respond, old(sh.log), config, shouldReset)
  {
    var dappUrl := DappUrl(config);

    // A running container short-cuts the launch
    var isRunning := IsDappContainerRunning(sh, config.dapp.uid);
    if isRunning.Err? {
      return Err(isRunning.error);
    }
    if isRunning.value {
      return Ok(dappUrl);
    }

    // Pick the image: the first listed one, or a fresh build
    var listing := sh.ExecSync(ImagesCommand(config.dapp.uid));
    if listing.Err? {
      return Err(listing.error);
    }
    var existingImages := ImageList(listing.value);
    var imageName: string;
    if |existingImages| > 0 && !shouldReset {
      imageName := existingImages[0];
    } else {
      var built := BuildDockerImage(sh, config);
      if built.Err? {
        return Err(built.error);
      }
      imageName := built.value;
    }

    // Start the detached, named container; its output is discarded
    var ran := sh.ExecSyncInherited(RunCommand(config, imageName));
    if ran.Err? {
      return Err(ran.error);
    }
    r := Ok(dappUrl);
  }

  // ---------------------------------------------------------------------
  // `execSync(cmd, { stdio: 'inherit' }).toString('utf-8')` as written

  const NullToStringError: string := "TypeError: Cannot read properties of null (reading 'toString')"

  /** The launcher's line after `docker run`, as written: it calls
      `toString` on what `execSync` returned, which throws on `null`. */
  function RunOutputAsWritten(ran: Result<Option<string>>): Result<string> {
    match ran
    case Err(e) => Err(e)
    case Ok(None) => Err(NullToStringError)
    case Ok(Some(out)) => Ok(out)
  }

  /** With inherited stdio nothing is captured, so as written every
      `docker run` that succeeds is followed by a TypeError: `buildAndRun`
      rejects although the container was started, whereas the launch
      modelled above settles with the URL. */
  lemma AsWrittenRunAlwaysRejects(respond: (seq<Step>, Step) -> Reply, log: seq<Step>, config: DappConfig, imageName: string)
    requires respond(log, RunStep(config, imageName)).Done?
    ensures RunOutputAsWritten(Inherited(respond(log, RunStep(config, imageName)))) == Err(NullToStringError)
    ensures RunTrace(respond, log, config, imageName).0 == Ok(DappUrl(config))
  {
  }
}
