/**
 * The runtime provisioner: finds the newest Node release of the configured
 * line on the distribution listing, downloads its archive unless a copy that
 * passes the SHA-256 manifest is already cached, unpacks it, and updates npm;
 * the update's `close` handler fires `updated_node_and_npm`.
 *
 * The filesystem is a `Disk` value passed in and handed back, the network a
 * `Network` value, and SHA-256 is not computed: each archive carries its digest.
 */
module NodeDownloader {

  import opened Wrappers
  import opened Text
  import opened Effects

  const NodeUrl := "https://nodejs.org/dist/latest-carbon/"
  const Platform := "darwin-x64"
  const NodeDir := ToolsDir + "/node"
  const ShasumsUrl := NodeUrl + "SHASUMS256.txt"
  const ShasumsPath := ArchiveDir + "/" + "node-SHASUMS256.txt"

  const Href := "href=\""
  const NodePrefix := "node-v"
  /** What `VERSION_REGEX` must see before the captured version. */
  const HrefPrefix := Href + NodePrefix
  /** What `VERSION_REGEX` must see after the captured version. */
  const ArchiveSuffix := "-" + Platform + ".tar.gz"

  /** The archive file name for a version: capture group 1 of `VERSION_REGEX`. */
  function ArchiveName(version: string): string {
    NodePrefix + version + ArchiveSuffix
  }

  /** The link to an archive is the matched prefix, the version and the suffix. */
  lemma HrefArchive(version: string)
    ensures Href + ArchiveName(version) == HrefPrefix + (version + ArchiveSuffix)
  {
  }

  /** The result of `getRemoteVersion`. */
  datatype Release = Release(version: string, filename: string)

  /** The release `getRemoteVersion` reports when the listing does not match. */
  const NoRelease := Release("0.0.0", "")

  /** The state of the private tools and archive directories. */
  datatype Disk = Disk(
    nodeVersion: Option<string>,      // what `node -v` prints, when the node binary exists
    nodeDir: bool,                    // the node directory exists
    archives: map<string, string>,    // archive files by name, each with its SHA-256 digest
    shasums: Option<string>)          // the cached checksum manifest

  /** What the distribution server answers. */
  datatype Network = Network(
    listing: string,                  // the HTML of the release listing
    shasums: string,                  // the text of SHASUMS256.txt
    archiveDigest: string)            // the SHA-256 digest of the archive it serves

  // ---------------------------------------------------------------------------
  // getLocalVersion

  /**
   * `getLocalVersion`: '0.0.0' without a node binary, else the `node -v`
   * output with its first 'v' removed, then trimmed.
   */
  function LocalVersion(nodeVersion: Option<string>): (r: string)
    ensures nodeVersion.None? ==> r == "0.0.0"
    ensures nodeVersion.Some? ==> |r| <= |nodeVersion.value|
    ensures nodeVersion.Some? ==> r == [] || (!IsSpace(r[0]) && !IsSpace(r[|r| - 1]))
  {
    match nodeVersion
    case None => "0.0.0"
    case Some(out) => Trim(RemoveFirst(out, 'v'))
  }

  /**
   * What `node -v` prints for a version, with any white space around it
   * (a line feed, a carriage return and line feed), is read back as that
   * version.
   */
  lemma LocalVersionOfOutput(front: string, version: string, back: string)
    requires AllSpace(front) && AllSpace(back) && IsVersionText(version)
    ensures LocalVersion(Some(front + "v" + version + back)) == version
  {
    var out := front + "v" + version + back;
    var kept := front + (version + back);
    assert forall k :: 0 <= k < |front| ==> front[k] != 'v';
    assert out == front + ['v'] + (version + back);
    RemoveFirstAt(front, 'v', version + back);
    assert kept == front + version + back;
    assert !IsSpace(version[0]) && !IsSpace(version[|version| - 1]) by {
      assert IsVersionChar(version[0]) && IsVersionChar(version[|version| - 1]);
    }
    TrimPadding(front, version, back);
  }

  // ---------------------------------------------------------------------------
  // getRemoteVersion

  predicate IsVersionChar(c: char) {
    IsDigit(c) || c == '.'
  }

  /** A non-empty text of the class `[0-9\.]`. */
  predicate IsVersionText(v: string) {
    |v| > 0 && forall i :: 0 <= i < |v| ==> IsVersionChar(v[i])
  }

  /** The length of the longest run of `[0-9\.]` at the start of `s`. */
  function VersionRun(s: string): (n: nat)
    ensures n <= |s|
    ensures forall i :: 0 <= i < n ==> IsVersionChar(s[i])
    ensures n < |s| ==> !IsVersionChar(s[n])
    decreases |s|
  {
    if |s| > 0 && IsVersionChar(s[0]) then 1 + VersionRun(s[1..]) else 0
  }

  /**
   * The version `VERSION_REGEX` captures in a match starting at `i`, if one
   * does. The greedy `[0-9\.]+` can only be followed by '-' after its longest
   * run, so backtracking never finds a shorter match.
   */
  function MatchAt(listing: string, i: nat): (r: Option<string>)
    requires i <= |listing|
    ensures r.Some? ==> IsVersionText(r.value)
                        && StartsWith(listing[i..], Href + ArchiveName(r.value))
  {
    var rest := listing[i..];
    if !StartsWith(rest, HrefPrefix) then None
    else
      var tail := rest[|HrefPrefix|..];
      var n := VersionRun(tail);
      if n > 0 && StartsWith(tail[n..], ArchiveSuffix) then
        var v := tail[..n];
        assert tail[n..] == tail[|v|..];
        StartsWithConcat(tail, v, ArchiveSuffix);
        StartsWithConcat(rest, HrefPrefix, v + ArchiveSuffix);
        HrefArchive(v);
        Some(v)
      else None
  }

  /** A run of version characters ends where the next character is not one. */
  lemma {:induction false} VersionRunStops(v: string, rest: string)
    requires forall i :: 0 <= i < |v| ==> IsVersionChar(v[i])
    requires rest == [] || !IsVersionChar(rest[0])
    ensures VersionRun(v + rest) == |v|
    decreases |v|
  {
    if v != [] {
      assert (v + rest)[1..] == v[1..] + rest;
      VersionRunStops(v[1..], rest);
    }
  }

  /** Every link to an archive of a version is the match found at its start. */
  lemma MatchAtComplete(listing: string, i: nat, v: string)
    requires i <= |listing| && IsVersionText(v)
    requires StartsWith(listing[i..], Href + ArchiveName(v))
    ensures MatchAt(listing, i) == Some(v)
  {
    var rest := listing[i..];
    HrefArchive(v);
    StartsWithSplit(rest, HrefPrefix, v + ArchiveSuffix);
    var tail := rest[|HrefPrefix|..];
    StartsWithSplit(tail, v, ArchiveSuffix);
    assert tail[..|v|] == v;
    assert tail == v + tail[|v|..];
    VersionRunStops(v, tail[|v|..]);
  }

  /** `exec` from position `i` on: where the leftmost match at or after `i` starts. */
  function FirstMatch(listing: string, i: nat): (r: Option<nat>)
    requires i <= |listing|
    ensures r.None? ==> forall j :: i <= j <= |listing| ==> MatchAt(listing, j).None?
    ensures r.Some? ==> i <= r.value <= |listing| && MatchAt(listing, r.value).Some?
                        && forall k :: i <= k < r.value ==> MatchAt(listing, k).None?
    decreases |listing| - i
  {
    if MatchAt(listing, i).Some? then Some(i)
    else if i == |listing| then None
    else FirstMatch(listing, i + 1)
  }

  /**
   * `getRemoteVersion`: the version and archive name of the leftmost match,
   * or version '0.0.0' and an empty name when nothing matches.
   */
  function RemoteVersion(listing: string): (r: Release)
    ensures r == NoRelease <==> forall j :: 0 <= j <= |listing| ==> MatchAt(listing, j).None?
    ensures r != NoRelease ==>
              IsVersionText(r.version) && r.filename == ArchiveName(r.version)
              && exists j :: 0 <= j <= |listing| && MatchAt(listing, j) == Some(r.version)
                             && StartsWith(listing[j..], Href + r.filename)
                             && forall k :: 0 <= k < j ==> MatchAt(listing, k).None?
  {
    match FirstMatch(listing, 0)
    case None => NoRelease
    case Some(j) =>
      var v := MatchAt(listing, j).value;
      assert ArchiveName(v) != "";
      Release(v, ArchiveName(v))
  }

  // ---------------------------------------------------------------------------
  // compareVersions: component-wise numeric comparison, missing components read as 0

  function Components(v: string): seq<nat> {
    var parts := Split(v, {'.'});
    seq(|parts|, i requires 0 <= i < |parts| => ParseNat(parts[i]))
  }

  function CompareComponents(a: seq<nat>, b: seq<nat>): (r: int)
    ensures -1 <= r <= 1
    decreases |a| + |b|
  {
    if a == [] && b == [] then 0
    else
      var x := if a == [] then 0 else a[0];
      var y := if b == [] then 0 else b[0];
      if x > y then 1
      else if x < y then -1
      else CompareComponents(if a == [] then [] else a[1..], if b == [] then [] else b[1..])
  }

  /** `compareVersions( a, b )`: 1 when a is newer, -1 when older, 0 when equal. */
  function CompareVersions(a: string, b: string): int {
    CompareComponents(Components(a), Components(b))
  }

  /** Swapping the arguments negates the comparison. */
  lemma {:induction false} CompareAntisymmetric(a: seq<nat>, b: seq<nat>)
    ensures CompareComponents(a, b) == -CompareComponents(b, a)
    decreases |a| + |b|
  {
    if a != [] || b != [] {
      CompareAntisymmetric(if a == [] then [] else a[1..], if b == [] then [] else b[1..]);
    }
  }

  /** A version is never newer than itself. */
  lemma {:induction false} CompareReflexive(a: seq<nat>)
    ensures CompareComponents(a, a) == 0
    decreases |a|
  {
    if a != [] {
      CompareReflexive(a[1..]);
    }
  }

  /** A version made of zeros is older than or equal to every version. */
  lemma {:induction false} ZerosAreOldest(a: seq<nat>, b: seq<nat>)
    requires forall i :: 0 <= i < |a| ==> a[i] == 0
    ensures CompareComponents(a, b) <= 0
    decreases |a| + |b|
  {
    if a != [] || b != [] {
      ZerosAreOldest(if a == [] then [] else a[1..], if b == [] then [] else b[1..]);
    }
  }

  /** '0.0.0' is never newer than any version. */
  lemma NothingBelowZero(v: string)
    ensures CompareVersions("0.0.0", v) <= 0
  {
    SplitFirst("0", '.', "0.0", {'.'});
    SplitFirst("0", '.', "0", {'.'});
    SplitWhole("0", {'.'});
    assert "0.0.0" == "0" + ['.'] + "0.0";
    assert "0.0" == "0" + ['.'] + "0";
    assert Split("0.0.0", {'.'}) == ["0", "0", "0"];
    ZerosAreOldest(Components("0.0.0"), Components(v));
  }

  // ---------------------------------------------------------------------------
  // checksumLocalArchive

  /**
   * One manifest line vouches for an archive when its first two
   * white-space-separated fields are the digest and the file name.
   */
  predicate Vouches(line: string, filename: string, digest: string) {
    var fields := SplitRuns(line);
    |fields| >= 2 && Trim(fields[1]) == filename && Trim(fields[0]) == digest
  }

  /** The `reduce` over the manifest lines, from the accumulator `allowed`. */
  function Vouch(allowed: bool, lines: seq<string>, filename: string, digest: string): bool
    decreases |lines|
  {
    if lines == [] then allowed
    else Vouch(if Vouches(lines[0], filename, digest) then true else allowed, lines[1..], filename, digest)
  }

  /** The manifest passes an archive: the reduce from `false` over its lines. */
  function ManifestPasses(manifest: string, filename: string, digest: string): bool {
    Vouch(false, Lines(manifest), filename, digest)
  }

  /** The reduce ends true iff it started true or some line vouches: a match is never reset. */
  lemma {:induction false} VouchIff(allowed: bool, lines: seq<string>, filename: string, digest: string)
    ensures Vouch(allowed, lines, filename, digest) <==>
              allowed || exists i :: 0 <= i < |lines| && Vouches(lines[i], filename, digest)
    decreases |lines|
  {
    if lines != [] {
      var next := if Vouches(lines[0], filename, digest) then true else allowed;
      VouchIff(next, lines[1..], filename, digest);
      if exists i :: 0 <= i < |lines[1..]| && Vouches(lines[1..][i], filename, digest) {
        var i :| 0 <= i < |lines[1..]| && Vouches(lines[1..][i], filename, digest);
        assert lines[1..][i] == lines[i + 1];
      }
      if exists i :: 0 <= i < |lines| && Vouches(lines[i], filename, digest) {
        var i :| 0 <= i < |lines| && Vouches(lines[i], filename, digest);
        if i > 0 {
          assert lines[1..][i - 1] == lines[i];
        }
      }
    }
  }

  /** The checksum passes iff some line of the manifest vouches for the archive. */
  lemma ManifestPassesIff(manifest: string, filename: string, digest: string)
    ensures ManifestPasses(manifest, filename, digest) <==>
              exists i :: 0 <= i < |Lines(manifest)| && Vouches(Lines(manifest)[i], filename, digest)
  {
    VouchIff(false, Lines(manifest), filename, digest);
  }

  /** A line in the manifest's own format, `<digest>  <filename>`, vouches for that archive. */
  lemma ManifestLineVouches(digest: string, filename: string)
    requires |digest| > 0 && NoSpace(digest)
    requires |filename| > 0 && NoSpace(filename)
    ensures Vouches(digest + "  " + filename, filename, digest)
  {
    SplitRunsPair(digest, "  ", filename);
    TrimPadding("", digest, "");
    TrimPadding("", filename, "");
    assert "" + digest + "" == digest;
    assert "" + filename + "" == filename;
  }

  /** The manifest the check reads: the cached one, else the one it downloads. */
  function ManifestAfter(disk: Disk, net: Network): string {
    disk.shasums.GetOr(net.shasums)
  }

  /** The archive is on disk and the manifest vouches for its digest. */
  predicate Verifies(disk: Disk, net: Network, filename: string) {
    filename in disk.archives && ManifestPasses(ManifestAfter(disk, net), filename, disk.archives[filename])
  }

  /**
   * `checksumLocalArchive`: false at once when the archive is absent;
   * otherwise downloads the manifest if it is not cached, and checks.
   */
  method ChecksumLocalArchive(disk: Disk, net: Network, filename: string)
    returns (passed: bool, disk': Disk, effects: seq<Effect>)
    ensures passed <==> Verifies(disk, net, filename)
    ensures filename !in disk.archives ==> disk' == disk && effects == []
    ensures filename in disk.archives ==>
              disk' == disk.(shasums := Some(ManifestAfter(disk, net)))
              && effects == (if disk.shasums.None? then [Download(ShasumsUrl, ShasumsPath)] else [])
  {
    if filename !in disk.archives {
      return false, disk, [];
    }
    disk', effects := disk, [];
    if disk.shasums.None? {
      effects := [Download(ShasumsUrl, ShasumsPath)];
      disk' := disk.(shasums := Some(net.shasums));
    }
    var localSum := disk'.archives[filename];
    var checksums := disk'.shasums.value;
    passed := ManifestPasses(checksums, filename, localSum);
  }

  // ---------------------------------------------------------------------------
  // checkAndInstallUpdates

  /** The disk once the archive has been downloaded. */
  function Downloaded(disk: Disk, net: Network, filename: string): Disk {
    disk.(archives := disk.archives[filename := net.archiveDigest])
  }

  predicate Downloads(effects: seq<Effect>, filename: string) {
    Download(NodeUrl + filename, ArchiveDir + "/" + filename) in effects
  }

  /** The effect list unpacks the archive into the node directory. */
  predicate Unpacks(effects: seq<Effect>, filename: string) {
    Extract(ArchiveDir + "/" + filename, NodeDir) in effects
  }

  /** The manifest download is never mistaken for the archive download. */
  lemma ManifestIsNotArchive(filename: string)
    ensures Download(ShasumsUrl, ShasumsPath) != Download(NodeUrl + filename, ArchiveDir + "/" + filename)
  {
    if NodeUrl + filename == ShasumsUrl {
      assert |filename| == |"SHASUMS256.txt"|;
      assert |ArchiveDir + "/" + filename| < |ShasumsPath|;
    }
  }

  /** No effect of the list runs a command or unpacks anything. */
  predicate OnlyFileTransfers(effects: seq<Effect>) {
    forall e :: e in effects ==> e.Download?
  }

  /** The remote release is newer than the local copy. */
  predicate IsNewer(disk: Disk, net: Network) {
    CompareVersions(RemoteVersion(net.listing).version, LocalVersion(disk.nodeVersion)) > 0
  }

  /** The archive name of the remote release. */
  function RemoteFile(net: Network): string {
    RemoteVersion(net.listing).filename
  }

  /**
   * The newer-release branch of `checkAndInstallUpdates`: reuse a cached
   * archive that verifies, else download it and check again; give up when
   * that fails, otherwise unpack it into the node directory.
   */
  method InstallRelease(disk: Disk, net: Network, remote: Release) returns (ok: bool, disk': Disk, effects: seq<Effect>)
    ensures ok <==> Verifies(disk, net, remote.filename)
                    || Verifies(Downloaded(disk, net, remote.filename), net, remote.filename)
    ensures Verifies(disk, net, remote.filename) ==> !Downloads(effects, remote.filename)
    ensures !ok ==> OnlyFileTransfers(effects)
    ensures ok ==> Verifies(disk', net, remote.filename)
                   && |effects| > 0 && effects[|effects| - 1] == Extract(ArchiveDir + "/" + remote.filename, NodeDir)
                   && forall e :: e in effects[..|effects| - 1] ==> e.Download? || e == MakeDir(NodeDir)
    ensures ok ==> disk'.nodeVersion == Some("v" + remote.version + "\n")
  {
    var filename := ArchiveDir + "/" + remote.filename;
    ManifestIsNotArchive(remote.filename);
    var passed, d, es := ChecksumLocalArchive(disk, net, remote.filename);
    disk', effects := d, es;
    if !passed {
      var url := NodeUrl + remote.filename;
      effects := effects + [Download(url, filename)];
      disk' := Downloaded(disk', net, remote.filename);
      passed, d, es := ChecksumLocalArchive(disk', net, remote.filename);
      disk', effects := d, effects + es;
      if !passed {
        return false, disk', effects;
      }
    }
    if !disk'.nodeDir {
      effects := effects + [MakeDir(NodeDir)];
      disk' := disk'.(nodeDir := true);
    }
    effects := effects + [Extract(filename, NodeDir)];
    disk' := disk'.(nodeVersion := Some("v" + remote.version + "\n"));
    ok := true;
  }

  /** Wrapping the install's effects in the listing fetch and the npm update changes no transfer. */
  lemma {:induction false} WrappedEffects(es: seq<Effect>, filename: string)
    ensures Downloads([Fetch(NodeUrl)] + es, filename) == Downloads(es, filename)
    ensures Downloads([Fetch(NodeUrl)] + es + [Run(NpmSelfUpdate)], filename) == Downloads(es, filename)
    ensures Unpacks([Fetch(NodeUrl)] + es, filename) == Unpacks(es, filename)
    ensures Unpacks([Fetch(NodeUrl)] + es + [Run(NpmSelfUpdate)], filename) == Unpacks(es, filename)
  {
    var d := Download(NodeUrl + filename, ArchiveDir + "/" + filename);
    var x := Extract(ArchiveDir + "/" + filename, NodeDir);
    assert d in [Fetch(NodeUrl)] + es <==> d in es;
    assert x in [Fetch(NodeUrl)] + es <==> x in es;
  }

  /**
   * `checkAndInstallUpdates`: returns false when a downloaded archive fails
   * its checksum; otherwise updates npm and returns true, having unpacked the
   * remote release first when it is newer than the local one.
   */
  method CheckAndInstallUpdates(disk: Disk, net: Network) returns (ok: bool, disk': Disk, effects: seq<Effect>)
    ensures !IsNewer(disk, net) ==> ok && disk' == disk && effects == [Fetch(NodeUrl), Run(NpmSelfUpdate)]
    ensures IsNewer(disk, net) ==>
              (ok <==> Verifies(disk, net, RemoteFile(net))
                       || Verifies(Downloaded(disk, net, RemoteFile(net)), net, RemoteFile(net)))
    ensures Verifies(disk, net, RemoteFile(net)) ==> !Downloads(effects, RemoteFile(net))
    ensures |effects| > 0 && effects[0] == Fetch(NodeUrl)
    ensures !ok ==> Run(NpmSelfUpdate) !in effects && OnlyFileTransfers(effects[1..])
    ensures ok ==> |effects| > 1 && effects[|effects| - 1] == Run(NpmSelfUpdate)
    ensures ok && IsNewer(disk, net) ==>
              Unpacks(effects, RemoteFile(net)) && Verifies(disk', net, RemoteFile(net))
              && disk'.nodeVersion == Some("v" + RemoteVersion(net.listing).version + "\n")
  {
    var currentVersion := LocalVersion(disk.nodeVersion);
    var remoteVersion := RemoteVersion(net.listing);
    if CompareVersions(remoteVersion.version, currentVersion) <= 0 {
      return true, disk, [Fetch(NodeUrl), Run(NpmSelfUpdate)];
    }
    ok, disk', effects := UpdateToRelease(disk, net, remoteVersion);
  }

  /** The newer-release path of `checkAndInstallUpdates`, from the listing fetch to the npm update. */
  method UpdateToRelease(disk: Disk, net: Network, remote: Release) returns (ok: bool, disk': Disk, effects: seq<Effect>)
    ensures ok <==> Verifies(disk, net, remote.filename)
                    || Verifies(Downloaded(disk, net, remote.filename), net, remote.filename)
    ensures Verifies(disk, net, remote.filename) ==> !Downloads(effects, remote.filename)
    ensures |effects| > 0 && effects[0] == Fetch(NodeUrl)
    ensures !ok ==> Run(NpmSelfUpdate) !in effects && OnlyFileTransfers(effects[1..])
    ensures ok ==> |effects| > 1 && effects[|effects| - 1] == Run(NpmSelfUpdate)
    ensures ok ==> Unpacks(effects, remote.filename) && Verifies(disk', net, remote.filename)
                   && disk'.nodeVersion == Some("v" + remote.version + "\n")
  {
    var installed, d, es := InstallRelease(disk, net, remote);
    WrappedEffects(es, remote.filename);
    disk', effects := d, [Fetch(NodeUrl)] + es;
    if !installed {
      assert effects[1..] == es;
      return false, disk', effects;
    }
    assert es[|es| - 1] in es;
    effects := effects + [Run(NpmSelfUpdate)];
    ok := true;
  }

  /** The `close` handler of the npm update: fires `updated_node_and_npm`, whatever the exit code. */
  function UpdateClosed(code: Option<int>): (effects: seq<Effect>)
    ensures |effects| == 1 && effects[0].Fire? && effects[0].action == UpdatedNodeAndNpm
  {
    [Fire(UpdatedNodeAndNpm, "")]
  }

  /**
   * After an install the local version is the release just unpacked, so the
   * next run with the same listing finds nothing newer and downloads nothing.
   */
  lemma InstalledReleaseIsCurrent(listing: string)
    ensures var v := RemoteVersion(listing).version;
            CompareVersions(v, LocalVersion(Some("v" + v + "\n"))) == 0
  {
    var v := RemoteVersion(listing).version;
    if RemoteVersion(listing) == NoRelease {
      assert IsVersionChar(v[0]) && IsVersionChar(v[1]) && IsVersionChar(v[2])
             && IsVersionChar(v[3]) && IsVersionChar(v[4]);
    }
    ReadBackIsCurrent(v);
  }

  /** A version compares equal to what `node -v` prints for it, read back. */
  lemma ReadBackIsCurrent(v: string)
    requires IsVersionText(v)
    ensures CompareVersions(v, LocalVersion(Some("v" + v + "\n"))) == 0
  {
    assert "v" + v + "\n" == "" + "v" + v + "\n";
    LocalVersionOfOutput("", v, "\n");
    CompareReflexive(Components(v));
  }

  /** When the listing does not match, nothing is newer than the local copy: no download. */
  lemma UnmatchedListingInstallsNothing(listing: string, nodeVersion: Option<string>)
    requires forall j :: 0 <= j <= |listing| ==> MatchAt(listing, j).None?
    ensures CompareVersions(RemoteVersion(listing).version, LocalVersion(nodeVersion)) <= 0
  {
    NothingBelowZero(LocalVersion(nodeVersion));
  }
}
