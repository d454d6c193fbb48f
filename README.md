# Dapp launcher: a Dafny model

This project models the decision and string logic of a desktop launcher for
"dapps": web applications packaged as container images and started on
demand. The container engine and the image builder are abstract. The model
covers:

- the image and container names derived from a dapp's `uid`;
- how the launcher reads the text tables printed by `docker ps` and
  `docker images` (trim, split into lines, drop the header, take the first
  column);
- `buildAndRun`, which returns the dapp's URL at once if its container is
  running; otherwise it reuses the first listed image, or builds one when
  there is none or a reset was asked for, and then starts a detached, named
  container with the configured port mappings;
- the prototype's `pack`, which reuses or builds the image the same way but
  never checks for a running container, and runs the image in the foreground
  with `-it` and without a name. Also its `--reset` flag detection;
- the port-mapping check of the configuration schema, `^[0-9]+:[0-9]+$`;
- the Launch button's correlation-id state machine in the renderer;
- the filter that hides dot-entries when dapp ids are listed.

Modules:

- `Wrappers`: `Option` and `Result`.
- `Text`: JavaScript's `trim`, `split`, `join`, `split(/\s+/)[0]` and integer
  rendering, with their laws.
- `DappConfigSchema`: the `dapp` block and the port pattern. The pattern is
  run as an automaton and proved equal to a direct statement of the language.
- `Engine`: a `Shell` object. Its `log` records every step taken (shell
  command or image build). Its constant `respond` gives the engine's reply to
  each step from the steps taken before it. `execSync` throws on a failing
  command, and that failure becomes an `Err` that ends the operation.
- `Launcher` and `Poc`: each operation is a method over a `Shell`. The method
  is specified by a trace function giving the result and the new log. Lemmas
  state the source's promises about that function.
- `LauncherButton`: a class whose fields are the component's four state hooks
  plus an outbox of sent `dapp:run` requests.
- `DappList`: the hidden-entry filter.

The `uid` goes into shell commands unchecked, and the model keeps it that
way. `RunCommandSplitsIntoWords` shows that the `docker run` command splits
into exactly the intended words if and only if the uid, the image name and
every mapping are free of spaces. Mappings that pass the schema always are,
so with such a configuration the words up to the last mapping come out as
intended whatever the uid holds (`ValidConfigRunWords`).

The code has no restart path for a stopped container and no three-valued
status query. `buildAndRun` only checks for a running container and then
issues `docker run`. The model follows that code.

On the Launch button, both the surrounding card and the button call
`runDapp`. The only guard is the pending correlation id, not the button's
`disabled` state, so `RunDapp` has no precondition on `LaunchDisabled`.

## Model

| member | source | states |
|---|---|---|
| Launcher.ImageName | packages/app/src/main/launcher/index.ts:11-13 | `dapp-packer/` followed by the uid; the prototype builds and lists the same name (packages/poc/src/main.ts:25,36) |
| Launcher.ContainerName | packages/app/src/main/launcher/index.ts:15-17 | `dapp-packer-container__` followed by the uid |
| Launcher.ImageNameInjective | packages/app/src/main/launcher/index.ts:11-13 | equal image names come from equal uids |
| Launcher.ContainerNameInjective | packages/app/src/main/launcher/index.ts:15-17 | equal container names come from equal uids |
| Launcher.ImageNameNeverContainerName | packages/app/src/main/launcher/index.ts:11-17 | no image name equals any container name (character 12 is `/` in one, `-` in the other) |
| Launcher.DappUrl | packages/app/src/main/launcher/index.ts:59 | `http://localhost:` followed by the port's exact decimal rendering (`IntToString`); this agrees with the template literal at index.ts:59 for integer ports of magnitude up to 2^53 (see "## Left out") |
| Launcher.DappUrlNamesPort | packages/app/src/main/launcher/index.ts:59 | the URL is `http://localhost:` followed by digits that read back as `httpPort`, with a `-` between them when the port is negative |
| Text.Trim | packages/app/src/main/launcher/index.ts:42 | the result is the input with its maximal leading and trailing white space removed; it is empty iff the input is all white space |
| Text.Split | packages/app/src/main/launcher/index.ts:43 | at least one piece, and no piece contains the separator |
| Text.Join | packages/app/src/main/launcher/index.ts:94 | the words with one separator between neighbours, as `Array.prototype.join` does |
| Text.SplitLength | packages/app/src/main/launcher/index.ts:43-45 | there is one more piece than there are separators |
| Text.JoinSplit | packages/app/src/main/launcher/index.ts:43 | joining the pieces with the separator gives back the text |
| Text.SplitJoin | packages/app/src/main/launcher/index.ts:86-94 | splitting a joined list of separator-free words gives the words back |
| Text.SplitJoinPrefix | packages/app/src/main/launcher/index.ts:86-94 | separator-free words joined in front of a separator come back first when the text is split, whatever text follows |
| Text.FirstField | packages/app/src/main/launcher/index.ts:73 | the field is the longest white-space-free prefix of the line |
| Text.IntToString | packages/app/src/main/launcher/index.ts:59 | an integer in decimal, with a leading `-` when negative (the property is stated by `DappUrlNamesPort`) |
| Launcher.ContainerListed | packages/app/src/main/launcher/index.ts:40-49 | the verdict on the `docker ps` output: at least one line after the header of the trimmed text |
| Launcher.ContainerListedIffMultiline | packages/app/src/main/launcher/index.ts:39-49 | the container counts as running iff the trimmed `docker ps` output has a newline; blank output never counts |
| Launcher.IsDappContainerRunning | packages/app/src/main/launcher/index.ts:39-50 | issues exactly the `docker ps --filter name=<container>` query; a failing query rejects, otherwise the verdict is the parse above |
| Launcher.ImageList | packages/app/src/main/launcher/index.ts:69-74 | the first field of every line after the header of the trimmed `docker images` output; the prototype parses the same way (packages/poc/src/main.ts:36-41) |
| Launcher.ImageListShape | packages/app/src/main/launcher/index.ts:69-74 | one entry per line after the header of the trimmed output; each entry is its line's first white-space-delimited field |
| Launcher.RunCommand | packages/app/src/main/launcher/index.ts:85-94 | the launcher's `docker run` array joined with single spaces |
| Launcher.RunCommandIsJoinedWords | packages/app/src/main/launcher/index.ts:85-94 | the command is `docker run -d`, then `-p <mapping>` per mapping in order (none when `ports` is absent), then `--name <container> <image>`, joined by single spaces |
| Launcher.RunCommandSplitsIntoWords | packages/app/src/main/launcher/index.ts:85-94 | the command splits into exactly those words iff uid, image and mappings contain no space |
| Launcher.ValidConfigRunWords | packages/app/src/main/launcher/index.ts:86-94 | for any schema-accepted configuration, whatever its uid and image name hold, the command splits into `docker run -d` and then exactly the two words `-p` and the mapping per mapping, followed by at least one more word; if the uid and image name are also free of spaces, it splits into exactly the intended words |
| Launcher.BuildAndRunTrace | packages/app/src/main/launcher/index.ts:58-99 | the result and the steps of `buildAndRun` from a given log, with the output of `docker run` discarded; every failure rejects and stops |
| Launcher.RunningContainerReturnsUrl | packages/app/src/main/launcher/index.ts:61-66 | a running container means one `docker ps` and then the URL: no listing, no build, no `docker run` |
| Launcher.EngineFailureRejects | packages/app/src/main/launcher/index.ts:58-66 | a failing `docker ps` rejects with its error before anything else is done |
| Launcher.BuildsIffNoImageOrReset | packages/app/src/main/launcher/index.ts:75-81 | the builder runs iff the image list is empty or `shouldReset` holds; otherwise the container starts from `existingImages[0]` |
| Launcher.BuildAndRunInvariants | packages/app/src/main/launcher/index.ts:58-99 | on every branch the log only grows, the builder is only given `getImageName(uid)`, `docker run` is the last step and runs `RunCommand`, and a fulfilled launch yields the URL |
| Launcher.BuildDockerImage | packages/app/src/main/launcher/index.ts:19-37 | one build step named `getImageName(uid)` with the dapp's repository and tag; yields that name or the build's error |
| Launcher.BuildAndRun | packages/app/src/main/launcher/index.ts:58-99 | result and new log are exactly those of `BuildAndRunTrace` |
| Launcher.AsWrittenRunAlwaysRejects | packages/app/src/main/launcher/index.ts:95 | as written, every successful `docker run` is followed by a TypeError; the corrected trace yields the URL |
| Engine.Shell.ExecSync | packages/app/src/main/launcher/index.ts:69-72 | appends the command to the log and returns the engine's output, or its error |
| Engine.Shell.ExecSyncInherited | packages/app/src/main/launcher/index.ts:95 | appends the command to the log; nothing is captured, so success yields null |
| Engine.Shell.BuildImage | packages/nixpacks/src/lib.rs:13-40 | appends the build to the log; on success yields the requested image name unchanged |
| DappConfigSchema.IsPortMapping | packages/app/src/common/types/DappConfigSchema.ts:16-18 | the port refinement `^[0-9]+:[0-9]+$`, run as a four-state automaton |
| DappConfigSchema.ValidDappConfig | packages/app/src/common/types/DappConfigSchema.ts:12-20 | `ports` is absent, or every entry passes the port refinement |
| DappConfigSchema.PortMappingMatchesPattern | packages/app/src/common/types/DappConfigSchema.ts:16-18 | a mapping is accepted iff it is one or more digits, one colon, one or more digits |
| DappConfigSchema.PortMappingRejectsEmptySide | packages/app/src/common/types/DappConfigSchema.ts:17 | `:<anything>` and `<anything>:` are rejected |
| DappConfigSchema.PortMappingAlphabet | packages/app/src/common/types/DappConfigSchema.ts:17 | an accepted mapping has only digits and exactly one colon, so no white space |
| DappConfigSchema.PortMappingRejectsStrays | packages/app/src/common/types/DappConfigSchema.ts:17 | any character that is not a digit or colon, or a second colon, gets the mapping rejected |
| Poc.PackRunCommand | packages/poc/src/main.ts:50-57 | the prototype's `docker run` array joined with single spaces |
| Poc.PackRunCommandWords | packages/poc/src/main.ts:50-57 | the command is `docker run`, `-p <mapping>` per mapping, `-it`, the image, joined by single spaces |
| Poc.PackRunIsForegroundAndUnnamed | packages/poc/src/main.ts:51-56 | no word before the image is `-d` or `--name`: the container runs in the foreground, unnamed |
| Poc.PackTrace | packages/poc/src/main.ts:36-60 | the result and the steps of `pack` from a given log; every failure rejects and stops |
| Poc.PackNeverQueriesContainers | packages/poc/src/main.ts:30-61 | the first step lists images, at most a build and a run follow, and no step is a `docker ps` query |
| Poc.PackReusesIffImagesAndNoReset | packages/poc/src/main.ts:42-48 | an image is reused iff the list is non-empty and no reset was asked for; otherwise the builder gets `dapp-packer/<uid>` and its image is run |
| Poc.ShouldReset | packages/poc/src/main.ts:65 | true iff some argument, once trimmed, is exactly `--reset` |
| Poc.Pack | packages/poc/src/main.ts:30-61 | result and new log are exactly those of `PackTrace` |
| LauncherButton.DappLauncherButton.constructor | packages/app/src/renderer/src/components/DappLauncherButton.tsx:9-12 | no pending id, no error, not building, no URL, nothing sent |
| LauncherButton.DappLauncherButton.RunDapp | packages/app/src/renderer/src/components/DappLauncherButton.tsx:36-48 | with an id pending nothing changes and nothing is sent; otherwise the fresh id is stored, building is set, and one request with that id and this uid is sent |
| LauncherButton.DappLauncherButton.OnLaunched | packages/app/src/renderer/src/components/DappLauncherButton.tsx:16-28 | a non-matching reply changes nothing; a matching one clears the id; an error is recorded and the button stays disabled; a success stops building and stores the URL |
| DappList.VisibleEntries | packages/app/src/main/ipc/dapp/list.ts:11 | the listing with every name that starts with `.` dropped; never longer than the listing |
| DappList.VisibleEntriesExact | packages/app/src/main/ipc/dapp/list.ts:11 | a name is returned iff it is in the listing and does not start with `.` |
| DappList.VisibleEntriesKeepOrder | packages/app/src/main/ipc/dapp/list.ts:11 | filtering commutes with concatenation, so ids keep their listing order |
| DappList.VisibleEntriesMultiplicity | packages/app/src/main/ipc/dapp/list.ts:11 | each visible name is kept as often as it occurs, each hidden name dropped |

## Findings

| source | as written | input that shows it | evidently intended | confidence | as-written member | corrected member |
|---|---|---|---|---|---|---|
| packages/app/src/main/launcher/index.ts:95 | `execSync(cmd, { stdio: 'inherit' }).toString('utf-8')`. With inherited stdio Node's `execSync` captures nothing and returns `null`, so `toString` throws a TypeError. | Any launch that reaches `docker run` with a container that is not running, where `docker run` exits 0. | Drop the `toString` on the inherited run, as `packages/poc/src/main.ts:58-60` does, and settle with the URL. As written, the promise rejects after the container has started, and the `dapp:run` handler never replies. | medium (rests on Node's documented `execSync`/`spawnSync` behaviour), not executed | Launcher.AsWrittenRunAlwaysRejects | Launcher.BuildAndRun |

## Left out

- Real process and file I/O is out: running shell commands, `git clone`, file reads and writes, TOML parsing and serialising, console logging, and the random temporary path of a build. The engine and the builder are the `Shell` oracle. A build is one opaque step that clones, writes the configuration and builds.
- `launch` (index.ts:101-132) is out. Its registry clone-or-pull is home-directory and git I/O. So is the schema parse of the configuration file: the configuration arrives already parsed. `ValidDappConfig` states what the port refinement accepts.
- The build-plan part of the configuration (providers, phases, start command) is not modelled. It is only serialised for the builder.
- `httpPort` is a JavaScript number. The model takes it as an integer, so fractional or non-finite values are not covered.
- Text.IntToString: renders every integer exactly, as plain decimal digits. JavaScript renders a number with the shortest digits that read back as the same double. Above 2^53 those digits can be rounded and padded with zeros: `${2**65}` is `36893488147419103000`, where the model gives `36893488147419103232`. From 10^21 upward JavaScript also switches to exponent form (`1e+21`). The URL is therefore modelled only for integer ports of magnitude up to 2^53.
- Launcher.DappUrlNamesPort: proves that the digits read back as the exact port. For integer ports above 2^53 that is stronger than what JavaScript prints, which is only the nearest double's shortest rendering, for the reason given on the Text.IntToString line.
- The engine's filter semantics are not modelled. The oracle decides what `docker ps --filter name=…` prints. Docker's name filter also matches parts of names, and `dapp-packer-container__abc` is a prefix of `dapp-packer-container__abcd`. So what a real engine reports for one uid can depend on other dapps' containers.
- Shell parsing beyond single spaces is out: quoting, tabs, and metacharacters such as `;` or `$`. The uid is not sanitised in the code, and the model states that as-is.
- React effect registration and cleanup is out (DappLauncherButton.tsx:15-34 apart from the handler body). This includes the stale closure over `runCorrId`, `removeAllListeners`, which also drops other buttons' handlers, state updaters run twice, and rendering.
- LauncherButton.DappLauncherButton.IsRunning and LauncherButton.DappLauncherButton.LaunchDisabled are predicates with no contract of their own. They mirror `!!dappUrl` and `isBuilding || isRunning` (DappLauncherButton.tsx:13,53) and are used in the contracts of `OnLaunched` and in `LaunchScenario`.
- Concurrent launches of the same or different dapps are out. The code has no locking.
- The IPC handlers (`status.ts`, `run.ts`, `stop.ts`), the status and stop operations they import, and the UI components and build tooling are not part of this model.
- The prototype's `main` resolves a path from the working directory and `pack` reads the configuration file there. Both are I/O. The prototype's own schema module is not part of this model, and the model assumes it has the same shape as the app's.
- The type declarations that mismatch (`dapps` in DappList.ts against the `dappUids` that list.ts sends) are not modelled.
