# TestPress supervisor core, in Dafny

TestPress is a desktop application that sets up a WordPress development environment. Behind its windows sit four
background services, and this project models them, together with the status mapper they report through:

- **The runtime provisioner** (`node-downloader`) finds the newest Node release on the distribution listing. It reuses
  a cached archive that passes the SHA-256 manifest, or downloads one and checks it again. It then unpacks the archive
  and updates npm. When that update closes, it fires `updated_node_and_npm`.
- **The dependency installer** (`npm-watcher`) keeps one `npm install` slot per folder preference
  (`wordpress-folder` and `gutenberg-folder`) and one `npm run dev` slot.
- **The asset-build watcher** (`grunt`) keeps one `grunt watch` process. It classifies that process's output into
  `ready` / `rebuilding` reports and fires `grunt_watch_first_run_finished` once per process. It also validates
  patch requests.
- **The container stack manager** (`docker`) renders the compose topology for the folder and the port, reads the
  Docker Toolbox machine's environment, and brings the stack up. It installs WordPress once the first build has
  finished, and restarts the stack when the preferences change.
- **The status mapper** (`utils/status`) forwards `okay` / `warning` / `error` reports to the status window.

Each service keeps module-level state, which becomes a class:
- `NpmWatcher.NpmWatcher`
- `Grunt.GruntWatcher`
- `Docker.DockerManager`
- `Status.StatusChannel`

What a service does to the outside world is appended to an effect log (module `Effects`). The log records processes
spawned and killed, actions fired, handlers registered, reports, file and network steps. An action that has already
fired (`didAction`) is an input set `fired`. Every class that holds processes keeps the invariant `Valid()`: the
processes the log leaves running are exactly those its slots hold, so no handle is leaked. The runtime provisioner
keeps no state of its own. It reads and returns the filesystem as a `Disk` value and reads the server as a
`Network` value.

The source has three behaviours that look unintended. Each is modelled as written, and a lemma exhibits it:
- The stack manager's restart test compares with `!==` against `wordpress-folder`, so a change of the WordPress
  folder itself never restarts the stack (`FolderChangeNeverRestarts`), while a Gutenberg-folder change does
  (`OtherFolderRestarts`).
- On Windows 10 Pro build 14393 or later, `detectToolbox` answers "Toolbox in use" exactly when every Hyper-V
  requirement is met (`DetectToolboxOnCapable`).
- The build watcher leaves `showedBuilding` true after the first idle marker, so the first rebuild after it is not
  reported (`QuietAfterFirstMarker`).

## Model

| member | source | states |
|---|---|---|
| Status.Colour | src/utils/status.js:5-9 | a token has a colour iff it is `okay`, `warning` or `error`; these map to `positive`, `intermediary` and `negative` |
| Status.Outgoing | src/utils/status.js:26-38 | a message is produced iff a window is set and the token is known; it goes to that window on channel `status` with the mapped colour and the text unchanged |
| Status.GruntReportsDropped | src/utils/status.js:32-35 | every `grunt` report is dropped, whatever the window |
| Status.StatusChannel.constructor | src/utils/status.js:3 | no window is set and nothing has been sent |
| Status.StatusChannel.SetStatusWindow | src/utils/status.js:16-18 | the new window replaces the old one; nothing is sent |
| Status.StatusChannel.SetStatus | src/utils/status.js:26-38 | exactly the one message `Outgoing` describes is sent, or none; the window is unchanged |
| NodeDownloader.LocalVersion | src/services/node-downloader/index.js:99-107 | `0.0.0` without a node binary; otherwise a version no longer than the `node -v` output that neither starts nor ends with white space |
| NodeDownloader.LocalVersionOfOutput | src/services/node-downloader/index.js:104-106 | the output `v<version>` with any white space before and after it (`\n`, `\r\n`) reads back as exactly `<version>` |
| NodeDownloader.VersionRun | src/services/node-downloader/index.js:16 | the version capture is the longest run of digits and dots at that point |
| NodeDownloader.MatchAt | src/services/node-downloader/index.js:16 | a match at a position captures a non-empty version made of digits and dots, and the text there is the link to that version's archive |
| NodeDownloader.VersionRunStops | src/services/node-downloader/index.js:16 | the run of digits and dots ends exactly where a character that is neither follows the version |
| NodeDownloader.MatchAtComplete | src/services/node-downloader/index.js:16 | wherever the link to an archive of a version of digits and dots starts, the match there captures exactly that version |
| NodeDownloader.FirstMatch | src/services/node-downloader/index.js:118 | the position found is the first one from which the pattern matches; none means no position matches |
| NodeDownloader.RemoteVersion | src/services/node-downloader/index.js:114-132 | `{0.0.0, ''}` iff the listing matches nowhere; otherwise the version of the first match, with filename `node-v<version>-darwin-x64.tar.gz` linked at that position |
| NodeDownloader.CompareAntisymmetric | src/services/node-downloader/index.js:48 | swapping the two versions negates the comparison |
| NodeDownloader.CompareReflexive | src/services/node-downloader/index.js:48 | a version is never newer than itself |
| NodeDownloader.ZerosAreOldest | src/services/node-downloader/index.js:95-101 | an all-zero version is never newer than any other |
| NodeDownloader.NothingBelowZero | src/services/node-downloader/index.js:95-101 | nothing is older than `0.0.0`, so a missing binary always looks outdated |
| NodeDownloader.VouchIff | src/services/node-downloader/index.js:162-168 | the reduce ends true iff it started true or some line vouches; a later line never resets a match |
| NodeDownloader.ManifestPassesIff | src/services/node-downloader/index.js:162-168 | the checksum passes iff some manifest line has the digest as its first field and the filename as its second |
| NodeDownloader.ManifestLineVouches | src/services/node-downloader/index.js:163-164 | a line in the manifest's own format `<digest>  <filename>` vouches for that archive |
| NodeDownloader.ChecksumLocalArchive | src/services/node-downloader/index.js:141-177 | passes iff the archive is on disk and the manifest vouches for its digest; a missing archive fails with no download; otherwise the manifest is downloaded only when not cached |
| NodeDownloader.ManifestIsNotArchive | src/services/node-downloader/index.js:143-154 | the manifest download never writes the archive |
| NodeDownloader.InstallRelease | src/services/node-downloader/index.js:50-85 | succeeds iff the cached archive verifies or the downloaded one does; a verifying cache is not downloaded again; a failure does nothing but transfer files; a success leaves a verifying archive, unpacks it last and installs that version |
| NodeDownloader.WrappedEffects | src/services/node-downloader/index.js:44-90 | the listing fetch and the npm update add no archive transfer and no unpacking |
| NodeDownloader.CheckAndInstallUpdates | src/services/node-downloader/index.js:41-91 | a release that is not newer is neither downloaded nor unpacked, and npm is updated with result true; a newer release succeeds iff an archive verifies; failure updates nothing; success unpacks, installs the release and updates npm last |
| NodeDownloader.UpdateToRelease | src/services/node-downloader/index.js:44-90 | the newer-release path: the listing fetch first, then success iff an archive verifies; npm is updated last only on success |
| NodeDownloader.UpdateClosed | src/services/node-downloader/index.js:192-195 | the update's close fires `updated_node_and_npm` exactly once, whatever the exit code |
| NodeDownloader.InstalledReleaseIsCurrent | src/services/node-downloader/index.js:48 | for every listing, the fallback `0.0.0` included: after installing the listed release, the same listing finds nothing newer |
| NodeDownloader.ReadBackIsCurrent | src/services/node-downloader/index.js:99-107 | a version compares equal to what `node -v` prints for it, read back |
| NodeDownloader.UnmatchedListingInstallsNothing | src/services/node-downloader/index.js:120-126 | a listing that matches nowhere is never newer than the local copy |
| NpmWatcher.InstallExit | src/services/npm-watcher/index.js:98-105 | exit code 0 fires `npm_install_finished` with the folder key, once; any other exit fires nothing |
| NpmWatcher.InstallStartAgreesWithSlot | src/services/npm-watcher/index.js:65-92 | the slot holds the new process iff `npm install` was spawned as it in that folder; it stays empty iff nothing is done; an unset folder starts nothing |
| NpmWatcher.RegisterFolder | src/services/npm-watcher/index.js:31-49 | every folder key registers the install handler; a watcher on `package.json` is added iff the folder is set and the file exists |
| NpmWatcher.NpmWatcher.constructor | src/services/npm-watcher/index.js:12-50 | both slots are empty, both folders are read, and the handlers are registered in order |
| NpmWatcher.NpmWatcher.RunNPMInstall | src/services/npm-watcher/index.js:57-106 | the folder's old process is killed before any gate; the slot holds a new install iff `updated_node_and_npm` has fired and the folder is set; the other slot and the dev slot are untouched |
| NpmWatcher.NpmWatcher.StartInstall | src/services/npm-watcher/index.js:75-92 | a missing cache directory is created before the install is spawned into the slot |
| NpmWatcher.NpmWatcher.KillInstall | src/services/npm-watcher/index.js:59-63 | the folder's process is killed if there is one, and the slot is cleared |
| NpmWatcher.NpmWatcher.KillDev | src/services/npm-watcher/index.js:115-119 | the dev process is killed if there is one, and the slot is cleared |
| NpmWatcher.NpmWatcher.RunNPMDev | src/services/npm-watcher/index.js:108-141 | only `gutenberg-folder` counts; the old dev process is killed first; a new one starts iff `npm_install_finished` has fired and the Gutenberg folder is set |
| NpmWatcher.NpmWatcher.PreferenceSaved | src/services/npm-watcher/index.js:150-169 | other sections, other keys and unchanged values change nothing; otherwise the folder is stored, the dev process is killed only for the Gutenberg folder, and that folder's install re-runs |
| NpmWatcher.NpmWatcher.Shutdown | src/services/npm-watcher/index.js:174-180 | only the dev process is killed; the install slots are unchanged |
| NpmWatcher.NpmWatcher.OnInstallExit | src/services/npm-watcher/index.js:98-105 | logs exactly what `InstallExit` fires and changes no slot |
| Grunt.Classify | src/services/grunt/index.js:103-123 | fires iff the first run is not finished and the chunk is an idle marker; a marker reports `ready`, marks the first run finished and sets `showedBuilding` exactly when the first run was not yet finished; a non-marker reports only `rebuilding`, exactly after the first run when `showedBuilding` is clear, sets it, and otherwise leaves the flags alone |
| Grunt.ReactionEffects | src/services/grunt/index.js:106-121 | a reaction logs one report and one action at most, and spawns or kills nothing |
| Grunt.Reports | src/services/grunt/index.js:103-123 | at most one report per chunk, each `ready` or `rebuilding` |
| Grunt.HasMarkerIff | src/services/grunt/index.js:104 | `HasMarker` holds iff some chunk is an idle marker |
| Grunt.FireCountIff | src/services/grunt/index.js:99-122 | a fresh process fires `grunt_watch_first_run_finished` exactly once if it prints a marker and never otherwise; after the first run it never fires again |
| Grunt.SilentUntilMarker | src/services/grunt/index.js:116-122 | before the first marker, chunks report nothing and fire nothing |
| Grunt.FirstReportIsReady | src/services/grunt/index.js:116-119 | before the first run is finished, the first report is `ready` |
| Grunt.NoRepeatedRebuilding | src/services/grunt/index.js:111-115 | `rebuilding` is never reported twice in a row, and opens the reports only after a shown `ready` |
| Grunt.RebuildingFollowsReady | src/services/grunt/index.js:99-123 | for a fresh process, every `rebuilding` comes right after a `ready` |
| Grunt.ReadyOnEveryMarker | src/services/grunt/index.js:106-110 | after the first run, every marker reports `ready`, so consecutive markers give `ready`, `ready`, … |
| Grunt.RebuildingAfterLaterMarker | src/services/grunt/index.js:106-115 | after the first run, a marker then a rebuild chunk report `ready`, then `rebuilding` |
| Grunt.QuietAfterFirstMarker | src/services/grunt/index.js:111-120 | a rebuild chunk right after the first marker reports nothing, because `showedBuilding` stays true |
| Grunt.PatchUrl | src/services/grunt/index.js:178-184 | a request is accepted iff the ticket is non-empty and all digits and the filename is non-empty without `/`; the URL is the ticket attachment URL |
| Grunt.PatchUrlInjective | src/services/grunt/index.js:184 | the ticket and the filename can be read back from an accepted URL |
| Grunt.GruntWatcher.constructor | src/services/grunt/index.js:21-53 | no watch process; the handlers, the patch server on 21853 and both IPC channels are registered; `Gruntfile.js` is watched iff the folder is set and the file exists |
| Grunt.GruntWatcher.RunGruntWatch | src/services/grunt/index.js:60-100 | folder keys other than `''` and `wordpress-folder` change nothing; otherwise `building` is reported and the old process killed before the gates; a new process with fresh flags starts iff `npm_install_finished` has fired and the folder is set |
| Grunt.GruntWatcher.KillWatch | src/services/grunt/index.js:70-74 | the watch process is killed if there is one, and the slot is cleared |
| Grunt.GruntWatcher.OnStdout | src/services/grunt/index.js:103-123 | the process's flags move on as `Classify` says and its reaction is logged; nothing else changes |
| Grunt.GruntWatcher.PreferenceSaved | src/services/grunt/index.js:133-150 | only a changed `basic` / `wordpress-folder` value counts; it is stored and the watcher is killed, not restarted |
| Grunt.GruntWatcher.Shutdown | src/services/grunt/index.js:254-260 | the watch process is killed and the slot cleared |
| Grunt.GruntWatcher.RunGruntPatch | src/services/grunt/index.js:199-218 | `grunt patch:<url>` runs in the folder iff it is set |
| Grunt.GruntWatcher.RunGruntUploadPatch | src/services/grunt/index.js:227-249 | `grunt upload_patch:<ticket>` runs with the credentials iff the folder is set |
| Grunt.GruntWatcher.HandlePatch | src/services/grunt/index.js:168-188 | answers success iff `PatchUrl` accepts the request; a rejected request runs nothing; an accepted one runs the patch of that URL when the folder is set |
| Docker.DefaultPort | src/services/docker/index.js:47 | the port is always truthy: the preference when truthy, else 9999 |
| Docker.PortText | src/services/docker/index.js:60 | a numeric port renders as a non-empty run of digits |
| Docker.TopologyShape | src/services/docker/index.js:54-110 | five services; `wordpress-develop` publishes `<port>:80`; `wordpress-develop`, `php` and `cli` mount the normalized folder at `/var/www`, `phpunit` at `/wordpress-develop`; mysql has the fixed database env and a `1s` / `100` health check |
| Docker.MountReadsBack | src/services/docker/index.js:64 | a volume entry reads back to its source |
| Docker.TopologyMountsFolder | src/services/docker/index.js:62-104 | every service that mounts the WordPress folder mounts the same normalized folder |
| Docker.BoundPortReadsBack | src/services/docker/index.js:60 | a numeric port is bound as itself: the host part reads back to it |
| Docker.EnvStep | src/services/docker/index.js:203-210 | variables are never removed; a line that assigns nothing (not starting with `SET`, or a `SET` line of fewer than three pieces) changes nothing; a line that assigns changes no variable but the one it names |
| Docker.EnvFoldAppend | src/services/docker/index.js:201-211 | the lines are applied in order: two blocks fold as the first, then the second |
| Docker.EnvFoldKeepsKeys | src/services/docker/index.js:201-211 | the fold never removes a variable |
| Docker.EnvSetLine | src/services/docker/index.js:203-210 | `SET <name>=<value>`, with or without a trailing carriage return, sets exactly that variable |
| Docker.EnvFoldUntouched | src/services/docker/index.js:201-211 | lines that never assign a variable keep its value |
| Docker.LaterLineWins | src/services/docker/index.js:201-211 | a `SET` line for a variable decides its value when no later line assigns that variable, whatever other lines (`REM`, blank) follow |
| Docker.EnvFoldNext | src/services/docker/index.js:201-211 | folding one more line applies that line to the fold so far |
| Docker.ApplyEnvLines | src/services/docker/index.js:201-211 | the loop over the output lines computes the in-order fold |
| Docker.HyperVAllowedIff | src/services/docker/index.js:352-359 | the reduce keeps its start value iff every requirement reads `yes`; one missing requirement makes it false for good |
| Docker.DetectToolbox | src/services/docker/index.js:335-359 | a system that is not Pro reports true; so does one that is not Hyper-V capable; no answer exactly when, on a Pro system, the version has no leading digits, or has a major version of 10 or more and no trailing digits (where the source throws) |
| Docker.DetectToolboxOnCapable | src/services/docker/index.js:350-359 | on Windows 10 Pro build 14393 or later, the answer is true iff every Hyper-V requirement reads `yes` |
| Docker.FolderChangeNeverRestarts | src/services/docker/index.js:372-374 | a change of the WordPress folder itself never restarts the stack |
| Docker.OtherFolderRestarts | src/services/docker/index.js:372-374 | a Gutenberg folder that differs from the WordPress folder restarts the stack |
| Docker.TypedPortRestarts | src/services/docker/index.js:376-378 | the port is compared strictly: a port saved as text differs from every numeric port, so a restart is wanted |
| Docker.InstallScript | src/services/docker/index.js:219-288 | the install opens with the `warning` report and ends with the `okay` report |
| Docker.InstallScriptMembers | src/services/docker/index.js:245-285 | every command of the install comes from one of its blocks, and the configuration block only when `config path` fails |
| Docker.ConfigCreatedIff | src/services/docker/index.js:245-265 | the configuration is created iff `config path` fails |
| Docker.CoreInstalledIff | src/services/docker/index.js:268-283 | `core install` runs iff the site is not installed; `home` is re-pointed iff it is |
| Docker.SecondInstallOnlyUpdatesUrls | src/services/docker/index.js:245-285 | on a configured, installed site the install only queries and re-points `home` and `siteurl` |
| Docker.StartLog | src/services/docker/index.js:44-141 | `startDocker` does nothing iff the folder is unset |
| Docker.InstallStartsNoMachine | src/services/docker/index.js:219-288 | the WordPress install never starts the Docker Machine |
| Docker.StartsMachineIff | src/services/docker/index.js:112-119 | the Docker Machine is started iff a folder is set and Toolbox is in use |
| Docker.StartReportsReadyIff | src/services/docker/index.js:134-140 | the site is reported ready by a start iff the folder is set and the first build has finished |
| Docker.StartWritesBeforeUp | src/services/docker/index.js:112-130 | the compose file is written first, and the stack is brought up after it |
| Docker.DockerManager.constructor | src/services/docker/index.js:18-23 | no folder, port 9999, empty environment, no Toolbox, nothing written or logged |
| Docker.DockerManager.RegisterDockerJob | src/services/docker/index.js:28-39 | on Windows the Toolbox answer is stored, and an unreadable answer stops registration; otherwise the handlers are registered and Docker starts as `StartLog` says |
| Docker.DockerManager.QueryToolbox | src/services/docker/index.js:31-33 | only Windows queries `systeminfo`; the answer is stored iff it can be read |
| Docker.DockerManager.StartDocker | src/services/docker/index.js:44-141 | the folder and the defaulted port are stored; with a folder the topology for them is written, the environment gets the machine's variables under Toolbox, and the log grows by `StartLog` |
| Docker.DockerManager.BringUp | src/services/docker/index.js:54-140 | the topology for the folder and port is written, and the log grows by `StartLog` |
| Docker.DockerManager.MachineIfToolbox | src/services/docker/index.js:116-118 | the machine step runs iff Toolbox is in use |
| Docker.DockerManager.InstallIfBuilt | src/services/docker/index.js:138-140 | WordPress is installed at once iff the first build has already finished |
| Docker.DockerManager.StartDockerMachine | src/services/docker/index.js:146-214 | the machine is started, the port forwarded and the env queried; the environment becomes the in-order fold of its output lines |
| Docker.DockerManager.InstallWordPress | src/services/docker/index.js:219-288 | the log grows by exactly the install script for the site; nothing else changes |
| Docker.DockerManager.PreferenceSaved | src/services/docker/index.js:369-397 | without a wanted restart nothing changes; with one, `docker-compose down` runs before Docker starts again from the saved preferences |
| Docker.DockerManager.Shutdown | src/services/docker/index.js:402-413 | `docker-compose down` runs with the current environment; nothing else changes |

## Left out

- The `while (1)` health poll of `installWordPress` (src/services/docker/index.js:223-242) has no bound, so the model starts after it has seen `healthy`.
- The `g` flag of `VERSION_REGEX` carries `lastIndex` from one `exec` call to the next. The model searches each listing from its start.
- Rejected promises (`fetch`, `spawn`, `tar.extract`, a failed `docker-machine`) and the exceptions they raise are not modelled. Every awaited step is taken to complete.
- `detectToolbox` reads `[0]` of a failed version match and throws. `DetectToolbox` returns no answer there, and `RegisterDockerJob` then stops, as the throw would.
- The CSV and JSON parsers are not modelled. `systeminfo` arrives as its three columns, and a patch request arrives as two strings, so a non-string `ticket` (where `.match` would throw) is not covered.
- `compare-versions` is a library. The model compares versions component by component as numbers, with missing components read as 0. The library throws on text that is not a version, such as an empty `node -v` output or `8..1`; the model reads an empty component as 0 and a character that is not a digit as the digit 0 there instead.
- SHA-256 is not computed. Each archive on the `Disk` carries its digest, and the server's archive carries one.
- `path.normalize` is modelled only as collapsing repeated `/`.
- White space is ASCII white space. `trim` and `\s+` do not cover the other Unicode spaces.
- `statusMap` is a plain object, so tokens such as `constructor` would find inherited properties. The model's map holds only the three tokens.
- The `@wordpress/hooks` handler priorities and ordering are not modelled. Fired actions are an input set, and `doAction` / `addAction` are log entries.
- `node-schedule` (`registerNodeJob`'s twice-daily run) is not modelled. Each call of `CheckAndInstallUpdates` is one run.
- `src/services/constants.js` exports only `TOOLS_DIR` and `ARCHIVE_DIR`. The `NPM_CACHE_DIR`, `NODE_BIN` and `NPM_BIN` that src/services/npm-watcher/index.js:9 imports, and the `NODE_BIN` of src/services/grunt/index.js:11, are therefore undefined as written, and `mkdirSync( NPM_CACHE_DIR )` (src/services/npm-watcher/index.js:77) and `spawn( NODE_BIN, … )` (src/services/npm-watcher/index.js:81, src/services/grunt/index.js:89) would throw. The model takes them to name the provisioned node and npm and an npm cache directory.
- Paths built from the environment are kept as opaque names: the Electron user-data directory `{userData}`, the npm cache directory `{npmCache}` and the service directory `{appDir}`.
- InstallRelease: unpacking is assumed to install a node binary whose `node -v` prints `v<version>\n` for the release unpacked; the archive's contents are not modelled. `InstalledReleaseIsCurrent` rests on this assumption.
- `process.env.PATH` and `VBOX_MSI_INSTALL_PATH` are not modelled. Commands are identified by their program and arguments, and their environment by the Docker variables.
- The `/testpress.user.js` branch of `patchListener` only streams a file, and it is not modelled.
- Stderr and debug logging are not modelled.
- Concurrency between handlers is not modelled. Each handler runs to completion before the next.
