/**
 * What the coordinators do to the outside world, as entries of an effect log:
 * subprocesses started and killed, actions fired on and handlers registered
 * with the `@wordpress/hooks` action bus, status reports, and the few
 * filesystem and network steps the runtime provisioner takes.
 */
module Effects {

  import opened Wrappers

  /** Identifies one subprocess a coordinator has spawned. */
  type Pid = nat

  /** The Electron user-data directory; its actual path is not part of this model. */
  const UserData := "{userData}"
  const ToolsDir := UserData + "/tools"
  const ArchiveDir := ToolsDir + "/archives"

  // Action names used on the bus.
  const UpdatedNodeAndNpm := "updated_node_and_npm"
  const NpmInstallFinished := "npm_install_finished"
  const GruntFirstRunFinished := "grunt_watch_first_run_finished"
  const PreferenceSaved := "preference_saved"
  const Shutdown := "shutdown"

  // Preference sections and keys.
  const Basic := "basic"
  const Site := "site"
  const WordPressFolder := "wordpress-folder"
  const GutenbergFolder := "gutenberg-folder"
  const PortKey := "port"

  /**
   * A preference value as the preferences store hands it over: folders are
   * text, the port is the number 9999 by default and text once typed in.
   */
  datatype Value = Text(s: string) | Number(n: nat)

  /** JavaScript truthiness of a preference value. */
  predicate Truthy(v: Value) {
    match v
    case Text(s) => s != ""
    case Number(n) => n != 0
  }

  /** The subprocess commands the coordinators run. */
  datatype Job =
    | NpmSelfUpdate                       // node npm install -g npm
    | NpmInstall(cwd: string)             // node npm install --scripts-prepend-node-path=true
    | NpmRunDev(cwd: string)              // node npm run dev
    | GruntWatch(cwd: string)             // node <cwd>/node_modules/grunt/bin/grunt watch --dev
    | GruntPatch(cwd: string, url: string) // node <cwd>/node_modules/grunt/bin/grunt patch:<url>
    | GruntUploadPatch(cwd: string, ticket: string, username: string, password: string)
                                          // node <cwd>/node_modules/grunt/bin/grunt upload_patch:<ticket>
    | Compose(args: seq<string>, env: map<string, string>)
                                          // docker-compose <args>, in the tools directory, with env
    | DockerMachine(args: seq<string>)    // docker-machine <args>
    | VBoxManage(args: seq<string>)       // VBoxManage <args>
    | WpCli(args: seq<string>, env: map<string, string>)
                                          // docker-compose run --rm cli <args>, with env
    | SystemInfoQuery(args: seq<string>)  // systeminfo <args>

  datatype Effect =
    | Spawn(pid: Pid, job: Job)           // a long-lived subprocess the coordinator holds in a slot
    | Kill(pid: Pid)
    | Run(job: Job)                       // a subprocess that is awaited or left to itself
    | Fire(action: string, arg: string)   // doAction( action, arg )
    | Listen(action: string, handler: string) // addAction( action, handler, ... )
    | Report(status: string, message: string) // setStatus( status, message )
    | Fetch(url: string)                  // a download read into memory
    | Download(url: string, path: string) // a download written to a file
    | MakeDir(path: string)
    | Extract(archive: string, dir: string)
    | Watch(path: string)                 // a file watcher registered on path
    | Serve(port: nat)                    // an HTTP server listening on port
    | Subscribe(channel: string)          // an IPC handler registered on channel
    | WriteFile(path: string)
    | CopyFile(source: string, target: string)
    | Rename(source: string, target: string)

  /** The effect list that kills what a slot holds, if anything. */
  function KillSlot(slot: Option<Pid>): (r: seq<Effect>)
    ensures |r| <= 1
    ensures slot.None? <==> r == []
    ensures slot.Some? ==> r == [Kill(slot.value)]
  {
    if slot.Some? then [Kill(slot.value)] else []
  }

  /** The process a slot holds, as a set. */
  function SlotSet(slot: Option<Pid>): (r: set<Pid>)
    ensures slot.None? <==> r == {}
    ensures forall p :: p in r <==> slot == Some(p)
  {
    if slot.Some? then {slot.value} else {}
  }

  /** Two slots never hold the same process. */
  predicate Apart(a: Option<Pid>, b: Option<Pid>) {
    a.Some? && b.Some? ==> a.value != b.value
  }

  /** The running set after one more effect. */
  function Step(running: set<Pid>, e: Effect): set<Pid> {
    if e.Spawn? then running + {e.pid}
    else if e.Kill? then running - {e.pid}
    else running
  }

  /** The subprocesses a log has spawned and not killed since. */
  ghost function Running(log: seq<Effect>): set<Pid>
    decreases |log|
  {
    if log == [] then {} else Step(Running(log[..|log| - 1]), log[|log| - 1])
  }

  lemma RunningSnoc(log: seq<Effect>, e: Effect)
    ensures Running(log + [e]) == Step(Running(log), e)
  {
    assert (log + [e])[..|log|] == log;
  }

  /** Killing what a slot holds takes exactly that process out of the running set. */
  lemma RunningKillSlot(log: seq<Effect>, slot: Option<Pid>)
    ensures Running(log + KillSlot(slot)) == Running(log) - SlotSet(slot)
  {
    if slot.Some? {
      RunningSnoc(log, Kill(slot.value));
    } else {
      assert log + KillSlot(slot) == log;
    }
  }

  /** A spawn adds its process to the running set. */
  lemma RunningSpawn(log: seq<Effect>, pid: Pid, job: Job)
    ensures Running(log + [Spawn(pid, job)]) == Running(log) + {pid}
  {
    RunningSnoc(log, Spawn(pid, job));
  }

  /** Effects that neither spawn nor kill leave the running set as it was. */
  lemma {:induction false} RunningQuiet(log: seq<Effect>, es: seq<Effect>)
    requires forall e :: e in es ==> !e.Spawn? && !e.Kill?
    ensures Running(log + es) == Running(log)
    decreases |es|
  {
    if es != [] {
      var init := es[..|es| - 1];
      var last := es[|es| - 1];
      assert es == init + [last];
      assert last in es;
      assert forall e :: e in init ==> e in es;
      RunningQuiet(log, init);
      assert log + es == (log + init) + [last];
      RunningSnoc(log + init, last);
    } else {
      assert log + es == log;
    }
  }
}
