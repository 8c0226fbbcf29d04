/**
 * The dependency installer: one `npm install` slot per folder preference and
 * one `npm run dev` slot for the Gutenberg folder. Every start first kills
 * what the slot holds, then checks that the runtime is in place and the
 * folder is set.
 */
module NpmWatcher {

  import opened Wrappers
  import opened Text
  import opened Effects

  /** The folder preferences that own an install slot. */
  const Folders: set<string> := {WordPressFolder, GutenbergFolder}

  /** The npm cache directory passed to `npm install`; its actual path is not part of this model. */
  const NpmCacheDir := "{npmCache}"

  /** The file whose changes re-run the install, once normalized. */
  function ManifestPath(cwd: string): string {
    Normalize(cwd + "/package.json")
  }

  /** An install may start: the runtime has been provisioned and the folder is set. */
  predicate InstallGate(fired: set<string>, cwd: string) {
    UpdatedNodeAndNpm in fired && cwd != ""
  }

  /** `npm run dev` may start: some install has finished and the Gutenberg folder is set. */
  predicate DevGate(fired: set<string>, cwd: string) {
    NpmInstallFinished in fired && cwd != ""
  }

  /** Creating the npm cache directory when it is missing. */
  function CacheSetup(cacheExists: bool): seq<Effect> {
    if cacheExists then [] else [MakeDir(NpmCacheDir)]
  }

  /** What `runNPMInstall` does once the slot is clear: starts `npm install` as `pid` when the gate is open. */
  function InstallStart(fired: set<string>, cwd: string, cacheExists: bool, pid: Pid): seq<Effect> {
    if InstallGate(fired, cwd) then CacheSetup(cacheExists) + [Spawn(pid, NpmInstall(cwd))] else []
  }

  /** What the install slot holds after `runNPMInstall`. */
  function InstallSlot(fired: set<string>, cwd: string, pid: Pid): Option<Pid> {
    if InstallGate(fired, cwd) then Some(pid) else None
  }

  /**
   * The slot and the log agree: the slot holds `pid` exactly when `npm install`
   * was spawned as `pid` in the folder, it stays empty exactly when nothing is
   * done, and the only other effect is creating the missing cache.
   */
  lemma InstallStartAgreesWithSlot(fired: set<string>, cwd: string, cacheExists: bool, pid: Pid)
    ensures InstallSlot(fired, cwd, pid) == Some(pid) <==> Spawn(pid, NpmInstall(cwd)) in InstallStart(fired, cwd, cacheExists, pid)
    ensures InstallSlot(fired, cwd, pid) == None <==> InstallStart(fired, cwd, cacheExists, pid) == []
    ensures forall e :: e in InstallStart(fired, cwd, cacheExists, pid) ==>
              e == Spawn(pid, NpmInstall(cwd)) || (e == MakeDir(NpmCacheDir) && !cacheExists)
    ensures cwd == "" ==> InstallStart(fired, cwd, cacheExists, pid) == []
  {
  }

  /**
   * The `exit` handler of an install: fires `npm_install_finished` with the
   * folder key on exit code 0, and nothing otherwise (a killed process exits
   * with no code).
   */
  function InstallExit(folder: string, code: Option<int>): (effects: seq<Effect>)
    ensures |effects| <= 1
    ensures effects != [] <==> code == Some(0)
    ensures forall e :: e in effects ==> e == Fire(NpmInstallFinished, folder)
  {
    if code != Some(0) then [] else [Fire(NpmInstallFinished, folder)]
  }

  class NpmWatcher {
    var installProcesses: map<string, Option<Pid>>
    var devProcess: Option<Pid>
    var cwds: map<string, string>
    var nextPid: Pid
    var log: seq<Effect>

    /** The processes the slots hold. */
    function Held(): set<Pid>
      reads this
      requires Folders <= installProcesses.Keys
    {
      SlotSet(installProcesses[WordPressFolder]) + SlotSet(installProcesses[GutenbergFolder])
      + SlotSet(devProcess)
    }

    /**
     * Both folder keys have a slot and a folder; the processes the log leaves
     * running are exactly those the slots hold, no process is in two slots,
     * and every handle was issued before `nextPid`.
     */
    ghost predicate Valid()
      reads this
    {
      installProcesses.Keys == Folders && cwds.Keys == Folders
      && Running(log) == Held()
      && Apart(installProcesses[WordPressFolder], installProcesses[GutenbergFolder])
      && Apart(installProcesses[WordPressFolder], devProcess)
      && Apart(installProcesses[GutenbergFolder], devProcess)
      && forall p :: p in Held() ==> p < nextPid
    }

    /**
     * `registerNPMJob`: registers the handlers, reads both folders, and
     * watches the `package.json` of each folder that is set and has one
     * (`manifests` holds the paths that exist).
     */
    constructor (wordpressFolder: string, gutenbergFolder: string, manifests: set<string>)
      ensures Valid()
      ensures installProcesses == map[WordPressFolder := None, GutenbergFolder := None] && devProcess == None
      ensures cwds == map[WordPressFolder := wordpressFolder, GutenbergFolder := gutenbergFolder]
      ensures log == [Listen(Effects.PreferenceSaved, "preferenceSaved"), Listen(NpmInstallFinished, "runNPMDev"),
                      Listen(Effects.Shutdown, "shutdown")]
                     + RegisterFolder(wordpressFolder, manifests) + RegisterFolder(gutenbergFolder, manifests)
    {
      installProcesses := map[WordPressFolder := None, GutenbergFolder := None];
      devProcess := None;
      cwds := map[WordPressFolder := wordpressFolder, GutenbergFolder := gutenbergFolder];
      nextPid := 0;
      var handlers := [Listen(Effects.PreferenceSaved, "preferenceSaved"), Listen(NpmInstallFinished, "runNPMDev"),
                       Listen(Effects.Shutdown, "shutdown")];
      RunningQuiet([], handlers);
      assert [] + handlers == handlers;
      var wordpress := RegisterFolder(wordpressFolder, manifests);
      RunningQuiet(handlers, wordpress);
      var gutenberg := RegisterFolder(gutenbergFolder, manifests);
      RunningQuiet(handlers + wordpress, gutenberg);
      log := handlers + wordpress + gutenberg;
    }

    /**
     * `runNPMInstall( folder )`: kills and clears the folder's slot, then
     * starts `npm install` in the folder when the gate is open. The other
     * folder's slot, the dev slot and the folders are untouched.
     */
    method RunNPMInstall(folder: string, fired: set<string>, cacheExists: bool)
      requires Valid() && folder in Folders
      modifies this
      ensures Valid()
      ensures cwds == old(cwds) && devProcess == old(devProcess)
      ensures installProcesses == old(installProcesses)[folder := InstallSlot(fired, cwds[folder], old(nextPid))]
      ensures nextPid == old(nextPid) + (if InstallGate(fired, cwds[folder]) then 1 else 0)
      ensures log == old(log) + KillSlot(old(installProcesses[folder]))
                     + InstallStart(fired, cwds[folder], cacheExists, old(nextPid))
    {
      KillInstall(folder);
      var cwd := cwds[folder];
      if !InstallGate(fired, cwd) {
        assert InstallStart(fired, cwd, cacheExists, nextPid) == [];
        assert InstallSlot(fired, cwd, nextPid) == None;
        assert log + [] == log;
        return;
      }
      ghost var killed := log;
      ghost var cleared := installProcesses;
      StartInstall(folder, cacheExists);
      assert log == killed + InstallStart(fired, cwd, cacheExists, old(nextPid));
      assert installProcesses == cleared[folder := Some(old(nextPid))];
      assert InstallSlot(fired, cwd, old(nextPid)) == Some(old(nextPid));
    }

    /** Creates the npm cache when it is missing and starts `npm install` into the empty slot. */
    method StartInstall(folder: string, cacheExists: bool)
      requires Valid() && folder in Folders && installProcesses[folder] == None
      modifies this
      ensures Valid()
      ensures cwds == old(cwds) && devProcess == old(devProcess)
      ensures installProcesses == old(installProcesses)[folder := Some(old(nextPid))]
      ensures nextPid == old(nextPid) + 1
      ensures log == old(log) + CacheSetup(cacheExists) + [Spawn(old(nextPid), NpmInstall(cwds[folder]))]
    {
      Note(CacheSetup(cacheExists));
      SpawnInstall(folder, NpmInstall(cwds[folder]));
    }

    /** Starts a process into an empty install slot. */
    method SpawnInstall(folder: string, job: Job)
      requires Valid() && folder in Folders && installProcesses[folder] == None
      modifies this
      ensures Valid()
      ensures cwds == old(cwds) && devProcess == old(devProcess)
      ensures installProcesses == old(installProcesses)[folder := Some(old(nextPid))]
      ensures nextPid == old(nextPid) + 1
      ensures log == old(log) + [Spawn(old(nextPid), job)]
    {
      var pid := nextPid;
      ghost var held := Held();
      assert pid !in held;
      RunningSpawn(log, pid, job);
      var slots := installProcesses[folder := Some(pid)];
      assert SlotSet(slots[WordPressFolder]) + SlotSet(slots[GutenbergFolder]) + SlotSet(devProcess) == held + {pid} by {
        if folder == WordPressFolder {
          assert slots[GutenbergFolder] == installProcesses[GutenbergFolder];
        } else {
          assert slots[WordPressFolder] == installProcesses[WordPressFolder];
        }
      }
      log := log + [Spawn(pid, job)];
      installProcesses := slots;
      nextPid := nextPid + 1;
      assert Running(log) == Held();
    }

    /** Appends effects that neither start nor kill a process. */
    method Note(es: seq<Effect>)
      requires Valid()
      requires forall e :: e in es ==> !e.Spawn? && !e.Kill?
      modifies this
      ensures Valid()
      ensures installProcesses == old(installProcesses) && devProcess == old(devProcess)
      ensures cwds == old(cwds) && nextPid == old(nextPid)
      ensures log == old(log) + es
    {
      RunningQuiet(log, es);
      log := log + es;
    }

    /** Kills and clears one install slot. */
    method KillInstall(folder: string)
      requires Valid() && folder in Folders
      modifies this
      ensures Valid()
      ensures cwds == old(cwds) && devProcess == old(devProcess) && nextPid == old(nextPid)
      ensures installProcesses == old(installProcesses)[folder := None]
      ensures log == old(log) + KillSlot(old(installProcesses[folder]))
    {
      RunningKillSlot(log, installProcesses[folder]);
      log := log + KillSlot(installProcesses[folder]);
      installProcesses := installProcesses[folder := None];
    }

    /** Kills and clears the dev slot. */
    method KillDev()
      requires Valid()
      modifies this
      ensures Valid()
      ensures cwds == old(cwds) && installProcesses == old(installProcesses) && nextPid == old(nextPid)
      ensures devProcess == None
      ensures log == old(log) + KillSlot(old(devProcess))
    {
      RunningKillSlot(log, devProcess);
      log := log + KillSlot(devProcess);
      devProcess := None;
    }

    /**
     * `runNPMDev( folder )`: ignored unless the folder is the Gutenberg one;
     * then kills and clears the dev slot and starts `npm run dev` in the
     * Gutenberg folder when the gate is open.
     */
    method RunNPMDev(folder: string, fired: set<string>)
      requires Valid()
      modifies this
      ensures Valid()
      ensures cwds == old(cwds) && installProcesses == old(installProcesses)
      ensures folder != GutenbergFolder ==>
                devProcess == old(devProcess) && nextPid == old(nextPid) && log == old(log)
      ensures folder == GutenbergFolder && DevGate(fired, cwds[GutenbergFolder]) ==>
                devProcess == Some(old(nextPid)) && nextPid == old(nextPid) + 1
                && log == old(log) + KillSlot(old(devProcess)) + [Spawn(old(nextPid), NpmRunDev(cwds[GutenbergFolder]))]
      ensures folder == GutenbergFolder && !DevGate(fired, cwds[GutenbergFolder]) ==>
                devProcess == None && nextPid == old(nextPid) && log == old(log) + KillSlot(old(devProcess))
    {
      if folder != GutenbergFolder {
        return;
      }
      KillDev();
      if NpmInstallFinished !in fired {
        return;
      }
      if cwds[GutenbergFolder] == "" {
        return;
      }
      RunningSpawn(log, nextPid, NpmRunDev(cwds[GutenbergFolder]));
      log := log + [Spawn(nextPid, NpmRunDev(cwds[GutenbergFolder]))];
      devProcess := Some(nextPid);
      nextPid := nextPid + 1;
    }

    /**
     * `preferenceSaved`: ignores other sections, other keys and unchanged
     * folders; otherwise stores the folder, kills the dev process when it is
     * the Gutenberg folder, and re-runs the install for that folder.
     */
    method PreferenceSaved(section: string, preference: string, value: string, fired: set<string>, cacheExists: bool)
      requires Valid()
      modifies this
      ensures Valid()
      ensures section != Basic || preference !in Folders || value == old(cwds)[preference] ==>
                installProcesses == old(installProcesses) && devProcess == old(devProcess)
                && cwds == old(cwds) && nextPid == old(nextPid) && log == old(log)
      ensures section == Basic && preference in Folders && value != old(cwds)[preference] ==>
                cwds == old(cwds)[preference := value]
                && installProcesses == old(installProcesses)[preference := InstallSlot(fired, value, old(nextPid))]
                && devProcess == (if preference == GutenbergFolder then None else old(devProcess))
                && log == old(log) + (if preference == GutenbergFolder then KillSlot(old(devProcess)) else [])
                          + KillSlot(old(installProcesses)[preference])
                          + InstallStart(fired, value, cacheExists, old(nextPid))
    {
      if section != Basic || (preference != WordPressFolder && preference != GutenbergFolder) {
        return;
      }
      if value == cwds[preference] {
        return;
      }
      SetFolder(preference, value);
      if preference == GutenbergFolder {
        KillDev();
      } else {
        assert log + [] == log;
      }
      RunNPMInstall(preference, fired, cacheExists);
    }

    /** Stores a folder preference. */
    method SetFolder(preference: string, value: string)
      requires Valid() && preference in Folders
      modifies this
      ensures Valid()
      ensures cwds == old(cwds)[preference := value]
      ensures installProcesses == old(installProcesses) && devProcess == old(devProcess)
      ensures nextPid == old(nextPid) && log == old(log)
    {
      cwds := cwds[preference := value];
    }

    /** `shutdown`: kills and clears the dev process; the install slots stay as they are. */
    method Shutdown()
      requires Valid()
      modifies this
      ensures Valid()
      ensures cwds == old(cwds) && installProcesses == old(installProcesses) && nextPid == old(nextPid)
      ensures devProcess == None
      ensures log == old(log) + KillSlot(old(devProcess))
    {
      KillDev();
    }

    /** The `exit` handler of the install started for `folder`. */
    method OnInstallExit(folder: string, code: Option<int>)
      requires Valid()
      modifies this
      ensures Valid()
      ensures installProcesses == old(installProcesses) && devProcess == old(devProcess)
      ensures cwds == old(cwds) && nextPid == old(nextPid)
      ensures log == old(log) + InstallExit(folder, code)
    {
      Note(InstallExit(folder, code));
    }
  }

  /**
   * The per-folder part of `registerNPMJob`: the `updated_node_and_npm`
   * handler, and a watcher on `package.json` when the folder is set and the
   * file exists.
   */
  function RegisterFolder(cwd: string, manifests: set<string>): (effects: seq<Effect>)
    ensures |effects| >= 1 && effects[0] == Listen(UpdatedNodeAndNpm, "runNPMInstall")
    ensures |effects| == 2 <==> cwd != "" && ManifestPath(cwd) in manifests
    ensures |effects| == 2 ==> effects[1] == Watch(ManifestPath(cwd))
    ensures |effects| <= 2
    ensures forall e :: e in effects ==> !e.Spawn? && !e.Kill?
  {
    [Listen(UpdatedNodeAndNpm, "runNPMInstall")]
    + (if cwd != "" && ManifestPath(cwd) in manifests then [Watch(ManifestPath(cwd))] else [])
  }
}
