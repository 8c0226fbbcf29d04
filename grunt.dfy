/**
 * The asset-build watcher: keeps one `grunt watch` process on the WordPress
 * folder, reads its output to report `ready` / `rebuilding` and to announce
 * the end of the first build, and runs `grunt patch` for the patch requests
 * its local HTTP server accepts.
 */
module Grunt {

  import opened Wrappers
  import opened Text
  import opened Effects

  /** The status token the watcher reports under; the status mapper knows no such token. */
  const Channel := "grunt"
  const Building := "building"
  const Ready := "ready"
  const Rebuilding := "rebuilding"

  /** The port of the patch-request server. */
  const PatchPort := 21853

  /** Where patches are fetched from. */
  const TracAttachments := "https://core.trac.wordpress.org/attachment/ticket/"

  // ---------------------------------------------------------------------------
  // The stdout classifier

  /** The two closure flags of one `grunt watch` process. */
  datatype WatchFlags = WatchFlags(finishedFirstRun: bool, showedBuilding: bool)

  /** The flags every newly spawned watch process starts with. */
  const FreshFlags := WatchFlags(false, true)

  /** What one stdout chunk does: the new flags, the status reported, and whether the first-run action fires. */
  datatype Reaction = Reaction(flags: WatchFlags, report: Option<string>, fires: bool)

  /** A chunk is the idle marker iff its trimmed text ends with `Waiting...`. */
  predicate IsIdleMarker(chunk: string) {
    EndsWith(Trim(chunk), "Waiting...")
  }

  /** The `data` handler on the watch process's stdout. */
  function Classify(flags: WatchFlags, chunk: string): (r: Reaction)
    ensures r.fires <==> !flags.finishedFirstRun && IsIdleMarker(chunk)
    ensures r.flags.finishedFirstRun <==> flags.finishedFirstRun || IsIdleMarker(chunk)
    ensures IsIdleMarker(chunk) ==> r.report == Some(Ready)
    ensures IsIdleMarker(chunk) ==> r.flags == WatchFlags(true, !flags.finishedFirstRun)
    ensures !IsIdleMarker(chunk) ==>
              (r.report.Some? <==> flags.finishedFirstRun && !flags.showedBuilding)
              && (r.report.Some? ==> r.report.value == Rebuilding && r.flags.showedBuilding)
              && (r.report.None? ==> r.flags == flags)
  {
    var waiting := IsIdleMarker(chunk);
    if flags.finishedFirstRun then
      if waiting then Reaction(WatchFlags(true, false), Some(Ready), false)
      else if !flags.showedBuilding then Reaction(WatchFlags(true, true), Some(Rebuilding), false)
      else Reaction(flags, None, false)
    else if waiting then Reaction(WatchFlags(true, true), Some(Ready), true)
    else Reaction(flags, None, false)
  }

  /** The log entries of one reaction: the status report, then the action. */
  function ReactionEffects(r: Reaction): (effects: seq<Effect>)
    ensures forall e :: e in effects ==> !e.Spawn? && !e.Kill?
    ensures |effects| == (if r.report.Some? then 1 else 0) + (if r.fires then 1 else 0)
  {
    (if r.report.Some? then [Report(Channel, r.report.value)] else [])
    + (if r.fires then [Fire(GruntFirstRunFinished, "")] else [])
  }

  /** The statuses reported while a process prints `chunks`, from `flags` on. */
  function Reports(flags: WatchFlags, chunks: seq<string>): (r: seq<string>)
    ensures |r| <= |chunks|
    ensures forall i :: 0 <= i < |r| ==> r[i] == Ready || r[i] == Rebuilding
    decreases |chunks|
  {
    if chunks == [] then []
    else
      var x := Classify(flags, chunks[0]);
      (if x.report.Some? then [x.report.value] else []) + Reports(x.flags, chunks[1..])
  }

  /** How often the first-run action fires while a process prints `chunks`. */
  function FireCount(flags: WatchFlags, chunks: seq<string>): nat
    decreases |chunks|
  {
    if chunks == [] then 0
    else
      var x := Classify(flags, chunks[0]);
      (if x.fires then 1 else 0) + FireCount(x.flags, chunks[1..])
  }

  /** Some chunk of the list is an idle marker. */
  predicate HasMarker(chunks: seq<string>)
    decreases |chunks|
  {
    chunks != [] && (IsIdleMarker(chunks[0]) || HasMarker(chunks[1..]))
  }

  /** `HasMarker` is the existential it names. */
  lemma {:induction false} HasMarkerIff(chunks: seq<string>)
    ensures HasMarker(chunks) <==> exists i :: 0 <= i < |chunks| && IsIdleMarker(chunks[i])
    decreases |chunks|
  {
    if chunks != [] {
      HasMarkerIff(chunks[1..]);
      if HasMarker(chunks[1..]) {
        var i :| 0 <= i < |chunks[1..]| && IsIdleMarker(chunks[1..][i]);
        assert chunks[i + 1] == chunks[1..][i];
      }
      if !IsIdleMarker(chunks[0]) && exists i :: 0 <= i < |chunks| && IsIdleMarker(chunks[i]) {
        var i :| 0 <= i < |chunks| && IsIdleMarker(chunks[i]);
        assert chunks[1..][i - 1] == chunks[i];
      }
    }
  }

  /**
   * The first-run action fires exactly once for a process that prints an
   * idle marker, and never for one that does not; once it has fired, never again.
   */
  lemma {:induction false} FireCountIff(flags: WatchFlags, chunks: seq<string>)
    ensures FireCount(flags, chunks) == if !flags.finishedFirstRun && HasMarker(chunks) then 1 else 0
    decreases |chunks|
  {
    if chunks != [] {
      FireCountIff(Classify(flags, chunks[0]).flags, chunks[1..]);
    }
  }

  /** Before the first marker, chunks report nothing and fire nothing. */
  lemma {:induction false} SilentUntilMarker(flags: WatchFlags, chunks: seq<string>)
    requires !flags.finishedFirstRun && !HasMarker(chunks)
    ensures Reports(flags, chunks) == [] && FireCount(flags, chunks) == 0
    decreases |chunks|
  {
    if chunks != [] {
      SilentUntilMarker(flags, chunks[1..]);
    }
  }

  /** A process that has not finished its first run reports `ready` first. */
  lemma {:induction false} FirstReportIsReady(flags: WatchFlags, chunks: seq<string>)
    requires !flags.finishedFirstRun
    ensures Reports(flags, chunks) != [] ==> Reports(flags, chunks)[0] == Ready
    decreases |chunks|
  {
    if chunks != [] && !IsIdleMarker(chunks[0]) {
      FirstReportIsReady(flags, chunks[1..]);
    }
  }

  /**
   * `rebuilding` is never reported twice in a row, and a report list can
   * only open with `rebuilding` from flags that showed `ready` last.
   */
  lemma {:induction false} NoRepeatedRebuilding(flags: WatchFlags, chunks: seq<string>)
    ensures var r := Reports(flags, chunks);
            forall i :: 0 <= i < |r| - 1 ==> !(r[i] == Rebuilding && r[i + 1] == Rebuilding)
    ensures var r := Reports(flags, chunks);
            r != [] && r[0] == Rebuilding ==> flags.finishedFirstRun && !flags.showedBuilding
    decreases |chunks|
  {
    if chunks != [] {
      var x := Classify(flags, chunks[0]);
      NoRepeatedRebuilding(x.flags, chunks[1..]);
      var rest := Reports(x.flags, chunks[1..]);
      if x.report.Some? {
        var r := Reports(flags, chunks);
        assert r == [x.report.value] + rest;
        forall i | 0 <= i < |r| - 1
          ensures !(r[i] == Rebuilding && r[i + 1] == Rebuilding)
        {
          if i > 0 {
            assert r[i] == rest[i - 1] && r[i + 1] == rest[i];
          }
        }
      }
    }
  }

  /** From a fresh process on, every `rebuilding` report comes right after a `ready` one. */
  lemma RebuildingFollowsReady(chunks: seq<string>)
    ensures var r := Reports(FreshFlags, chunks);
            forall i :: 0 <= i < |r| && r[i] == Rebuilding ==> i > 0 && r[i - 1] == Ready
  {
    FirstReportIsReady(FreshFlags, chunks);
    NoRepeatedRebuilding(FreshFlags, chunks);
  }

  /** Every chunk is an idle marker. */
  predicate AllMarkers(chunks: seq<string>) {
    forall i :: 0 <= i < |chunks| ==> IsIdleMarker(chunks[i])
  }

  /** Every report is `ready`. */
  predicate AllReady(reports: seq<string>) {
    forall i :: 0 <= i < |reports| ==> reports[i] == Ready
  }

  /** After the first run, every marker reports `ready`, however many come in a row. */
  lemma {:induction false} ReadyOnEveryMarker(flags: WatchFlags, chunks: seq<string>)
    requires flags.finishedFirstRun && AllMarkers(chunks)
    ensures |Reports(flags, chunks)| == |chunks| && AllReady(Reports(flags, chunks))
    decreases |chunks|
  {
    if chunks != [] {
      var x := Classify(flags, chunks[0]);
      assert IsIdleMarker(chunks[0]);
      assert AllMarkers(chunks[1..]) by {
        forall i | 0 <= i < |chunks[1..]|
          ensures IsIdleMarker(chunks[1..][i])
        {
          assert chunks[1..][i] == chunks[i + 1];
        }
      }
      ReadyOnEveryMarker(x.flags, chunks[1..]);
      var rest := Reports(x.flags, chunks[1..]);
      assert Reports(flags, chunks) == [Ready] + rest;
      assert AllReady([Ready] + rest) by {
        forall i | 0 <= i < |[Ready] + rest|
          ensures ([Ready] + rest)[i] == Ready
        {
          if i > 0 {
            assert ([Ready] + rest)[i] == rest[i - 1];
          }
        }
      }
    }
  }

  /**
   * After the first run, a marker shows `ready` and clears `showedBuilding`,
   * so the rebuild chunk after it reports `rebuilding`.
   */
  lemma RebuildingAfterLaterMarker(flags: WatchFlags, marker: string, chunk: string)
    requires flags.finishedFirstRun && IsIdleMarker(marker) && !IsIdleMarker(chunk)
    ensures Reports(flags, [marker, chunk]) == [Ready, Rebuilding]
  {
    var x := Classify(flags, marker);
    assert [marker, chunk][1..] == [chunk];
    assert [chunk][1..] == [];
  }

  /**
   * The chunk right after the first marker reports nothing even when it is
   * a rebuild, because the first marker leaves `showedBuilding` true.
   */
  lemma QuietAfterFirstMarker(marker: string, chunk: string)
    requires IsIdleMarker(marker) && !IsIdleMarker(chunk)
    ensures Reports(FreshFlags, [marker, chunk]) == [Ready]
    ensures FireCount(FreshFlags, [marker, chunk]) == 1
  {
    var x := Classify(FreshFlags, marker);
    assert [marker, chunk][1..] == [chunk];
    assert [chunk][1..] == [];
    assert x.flags == WatchFlags(true, true);
    assert FireCount(x.flags, [chunk]) == 0;
  }

  // ---------------------------------------------------------------------------
  // The patch-request validator

  /**
   * The `/patch` request check: the patch URL, or nothing when the ticket is
   * empty or holds a non-digit or the filename is empty or holds a '/'.
   */
  function PatchUrl(ticket: string, filename: string): (r: Option<string>)
    ensures r.Some? <==> ticket != "" && AllDigits(ticket) && filename != "" && '/' !in filename
    ensures r.Some? ==> r.value == TracAttachments + ticket + "/" + filename
  {
    if ticket == "" || !AllDigits(ticket) || filename == "" || '/' in filename then None
    else Some(TracAttachments + ticket + "/" + filename)
  }

  /** Different accepted requests build different URLs: the ticket and the filename can be read back. */
  lemma PatchUrlInjective(ticket: string, filename: string, ticket': string, filename': string)
    requires PatchUrl(ticket, filename).Some? && PatchUrl(ticket', filename').Some?
    requires PatchUrl(ticket, filename) == PatchUrl(ticket', filename')
    ensures ticket == ticket' && filename == filename'
  {
    var u := PatchUrl(ticket, filename).value;
    var n := |TracAttachments|;
    assert u[n..] == ticket + ['/'] + filename;
    assert u[n..] == ticket' + ['/'] + filename';
    BeforeLastAt(ticket, '/', filename);
    BeforeLastAt(ticket', '/', filename');
    assert u[n + |ticket| + 1..] == filename;
    assert u[n + |ticket'| + 1..] == filename';
  }

  /** The watched build file, once normalized. */
  function GruntfilePath(cwd: string): string {
    Normalize(cwd + "/Gruntfile.js")
  }

  /** `grunt watch` may start: some install has finished and the WordPress folder is set. */
  predicate WatchGate(fired: set<string>, cwd: string) {
    NpmInstallFinished in fired && cwd != ""
  }

  /** What `runGruntWatch` starts once the slot is clear. */
  function WatchStart(fired: set<string>, cwd: string, pid: Pid): seq<Effect> {
    if WatchGate(fired, cwd) then [Spawn(pid, GruntWatch(cwd))] else []
  }

  /** What the watch slot holds after `runGruntWatch`. */
  function WatchSlot(fired: set<string>, cwd: string, pid: Pid): Option<Pid> {
    if WatchGate(fired, cwd) then Some(pid) else None
  }

  /** `runGruntWatch` acts on its own call (`''`) and on the WordPress folder only. */
  predicate WatchesFolder(folderPref: string) {
    folderPref == "" || folderPref == WordPressFolder
  }

  /** The module state: the watch slot, the WordPress folder, and the flags of every watch process spawned. */
  class GruntWatcher {
    var watchProcess: Option<Pid>
    var cwd: string
    var flags: map<Pid, WatchFlags>
    var nextPid: Pid
    var log: seq<Effect>

    /**
     * The process the log leaves running is the one in the slot; it has
     * flags; every handle was issued before `nextPid`.
     */
    ghost predicate Valid()
      reads this
    {
      Running(log) == SlotSet(watchProcess)
      && (watchProcess.Some? ==> watchProcess.value in flags)
      && forall p :: p in flags ==> p < nextPid
    }

    /**
     * `registerGruntJob`: registers the handlers, the patch server and the
     * IPC channels, reads the WordPress folder, and watches its
     * `Gruntfile.js` when the folder is set and the file exists
     * (`gruntfiles` holds the paths that exist).
     */
    constructor (wordpressFolder: string, gruntfiles: set<string>)
      ensures Valid()
      ensures watchProcess == None && cwd == wordpressFolder && flags == map[]
      ensures log == [Listen(NpmInstallFinished, "runGruntWatch"), Listen(Effects.PreferenceSaved, "preferenceSaved"),
                      Listen(Effects.Shutdown, "shutdown"), Serve(PatchPort),
                      Subscribe("applyPatch"), Subscribe("uploadPatch")]
                     + (if wordpressFolder != "" && GruntfilePath(wordpressFolder) in gruntfiles
                        then [Watch(GruntfilePath(wordpressFolder))] else [])
    {
      watchProcess := None;
      cwd := wordpressFolder;
      flags := map[];
      nextPid := 0;
      var es := [Listen(NpmInstallFinished, "runGruntWatch"), Listen(Effects.PreferenceSaved, "preferenceSaved"),
                 Listen(Effects.Shutdown, "shutdown"), Serve(PatchPort),
                 Subscribe("applyPatch"), Subscribe("uploadPatch")]
                + (if wordpressFolder != "" && GruntfilePath(wordpressFolder) in gruntfiles
                   then [Watch(GruntfilePath(wordpressFolder))] else []);
      RunningQuiet([], es);
      assert [] + es == es;
      log := es;
    }

    /**
     * `runGruntWatch( folderPref )`: for its own folder, reports `building`,
     * kills and clears the slot, and starts `grunt watch` with fresh flags
     * when the gate is open.
     */
    method RunGruntWatch(folderPref: string, fired: set<string>)
      requires Valid()
      modifies this
      ensures Valid()
      ensures cwd == old(cwd)
      ensures !WatchesFolder(folderPref) ==>
                watchProcess == old(watchProcess) && flags == old(flags)
                && nextPid == old(nextPid) && log == old(log)
      ensures WatchesFolder(folderPref) ==>
                watchProcess == WatchSlot(fired, cwd, old(nextPid))
                && flags == (if WatchGate(fired, cwd) then old(flags)[old(nextPid) := FreshFlags] else old(flags))
                && nextPid == old(nextPid) + (if WatchGate(fired, cwd) then 1 else 0)
                && log == old(log) + [Report(Channel, Building)] + KillSlot(old(watchProcess))
                          + WatchStart(fired, cwd, old(nextPid))
    {
      if !WatchesFolder(folderPref) {
        return;
      }
      Note([Report(Channel, Building)]);
      KillWatch();
      if NpmInstallFinished !in fired {
        assert log + [] == log;
        return;
      }
      if cwd == "" {
        assert log + [] == log;
        return;
      }
      SpawnWatch();
    }

    /** Starts `grunt watch` in the WordPress folder, into the empty slot, with fresh flags. */
    method SpawnWatch()
      requires Valid() && watchProcess == None
      modifies this
      ensures Valid()
      ensures cwd == old(cwd)
      ensures watchProcess == Some(old(nextPid)) && flags == old(flags)[old(nextPid) := FreshFlags]
      ensures nextPid == old(nextPid) + 1
      ensures log == old(log) + [Spawn(old(nextPid), GruntWatch(cwd))]
    {
      var pid := nextPid;
      RunningSpawn(log, pid, GruntWatch(cwd));
      assert Running(log + [Spawn(pid, GruntWatch(cwd))]) == SlotSet(Some(pid));
      var issued := flags[pid := FreshFlags];
      assert forall p :: p in issued ==> p < pid + 1;
      log := log + [Spawn(pid, GruntWatch(cwd))];
      watchProcess := Some(pid);
      flags := issued;
      nextPid := pid + 1;
    }

    /** Kills and clears the watch slot. */
    method KillWatch()
      requires Valid()
      modifies this
      ensures Valid()
      ensures cwd == old(cwd) && flags == old(flags) && nextPid == old(nextPid)
      ensures watchProcess == None
      ensures log == old(log) + KillSlot(old(watchProcess))
    {
      RunningKillSlot(log, watchProcess);
      log := log + KillSlot(watchProcess);
      watchProcess := None;
    }

    /** Appends effects that neither start nor kill a process. */
    method Note(es: seq<Effect>)
      requires Valid()
      requires forall e :: e in es ==> !e.Spawn? && !e.Kill?
      modifies this
      ensures Valid()
      ensures watchProcess == old(watchProcess) && cwd == old(cwd) && flags == old(flags)
      ensures nextPid == old(nextPid) && log == old(log) + es
    {
      RunningQuiet(log, es);
      log := log + es;
    }

    /** A stdout chunk of watch process `pid`: its flags move on as `Classify` says, and its reaction is logged. */
    method OnStdout(pid: Pid, chunk: string)
      requires Valid() && pid in flags
      modifies this
      ensures Valid()
      ensures watchProcess == old(watchProcess) && cwd == old(cwd) && nextPid == old(nextPid)
      ensures flags == old(flags)[pid := Classify(old(flags)[pid], chunk).flags]
      ensures log == old(log) + ReactionEffects(Classify(old(flags)[pid], chunk))
    {
      var r := Classify(flags[pid], chunk);
      Note(ReactionEffects(r));
      flags := flags[pid := r.flags];
    }

    /**
     * `preferenceSaved`: only a changed `basic` / `wordpress-folder` value
     * counts; it is stored and the watcher is killed, not restarted.
     */
    method PreferenceSaved(section: string, preference: string, value: string)
      requires Valid()
      modifies this
      ensures Valid()
      ensures flags == old(flags) && nextPid == old(nextPid)
      ensures section != Basic || preference != WordPressFolder || value == old(cwd) ==>
                watchProcess == old(watchProcess) && cwd == old(cwd) && log == old(log)
      ensures section == Basic && preference == WordPressFolder && value != old(cwd) ==>
                cwd == value && watchProcess == None && log == old(log) + KillSlot(old(watchProcess))
    {
      if section != Basic || preference != WordPressFolder {
        return;
      }
      if value == cwd {
        return;
      }
      cwd := value;
      KillWatch();
    }

    /** `shutdown`: kills and clears the watch slot. */
    method Shutdown()
      requires Valid()
      modifies this
      ensures Valid()
      ensures cwd == old(cwd) && flags == old(flags) && nextPid == old(nextPid)
      ensures watchProcess == None
      ensures log == old(log) + KillSlot(old(watchProcess))
    {
      KillWatch();
    }

    /** `runGruntPatch( url )`: runs `grunt patch:<url>` in the WordPress folder, when it is set. */
    method RunGruntPatch(url: string)
      requires Valid()
      modifies this
      ensures Valid()
      ensures watchProcess == old(watchProcess) && cwd == old(cwd) && flags == old(flags) && nextPid == old(nextPid)
      ensures log == old(log) + (if cwd == "" then [] else [Run(GruntPatch(cwd, url))])
    {
      if cwd == "" {
        assert log + [] == log;
        return;
      }
      Note([Run(GruntPatch(cwd, url))]);
    }

    /** `runGruntUploadPatch`: runs `grunt upload_patch:<ticket>` with the credentials, when the folder is set. */
    method RunGruntUploadPatch(ticket: string, username: string, password: string)
      requires Valid()
      modifies this
      ensures Valid()
      ensures watchProcess == old(watchProcess) && cwd == old(cwd) && flags == old(flags) && nextPid == old(nextPid)
      ensures log == old(log) + (if cwd == "" then [] else [Run(GruntUploadPatch(cwd, ticket, username, password))])
    {
      if cwd == "" {
        assert log + [] == log;
        return;
      }
      Note([Run(GruntUploadPatch(cwd, ticket, username, password))]);
    }

    /**
     * The `/patch` branch of `patchListener`: answers `success: false` for a
     * rejected request; otherwise runs the patch and answers `success: true`.
     */
    method HandlePatch(ticket: string, filename: string) returns (success: bool)
      requires Valid()
      modifies this
      ensures Valid()
      ensures success <==> PatchUrl(ticket, filename).Some?
      ensures watchProcess == old(watchProcess) && cwd == old(cwd) && flags == old(flags) && nextPid == old(nextPid)
      ensures !success ==> log == old(log)
      ensures success && cwd == "" ==> log == old(log)
      ensures success && cwd != "" ==> log == old(log) + [Run(GruntPatch(cwd, PatchUrl(ticket, filename).value))]
    {
      var url := PatchUrl(ticket, filename);
      if url.None? {
        return false;
      }
      RunGruntPatch(url.value);
      success := true;
    }
  }
}
