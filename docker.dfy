/**
 * The container stack manager: renders the compose topology for the
 * WordPress folder and port, brings the stack up (starting the Docker
 * Toolbox machine first when that is in use), installs WordPress once the
 * first build has finished, and restarts the stack when the folder or port
 * preference changes.
 */
module Docker {

  import opened Wrappers
  import opened Text
  import opened Effects

  /** The port used when the preference is falsy. */
  const DefaultPortNumber: nat := 9999

  const ComposePath := Normalize(ToolsDir + "/docker-compose.yml")
  /** The nginx configuration shipped next to the service; the install directory is not part of this model. */
  const ConfSource := Normalize("{appDir}" + "/default.conf")
  const ConfTarget := Normalize(ToolsDir + "/default.conf")

  const BuildingMessage := "Building environment ..."
  const ReadyMessage := "Ready :"

  // ---------------------------------------------------------------------------
  // Preferences

  /** The two preferences `startDocker` reads: `basic.wordpress-folder` and `site.port`. */
  datatype Prefs = Prefs(folder: string, port: Value)

  /** `port || 9999`: the port preference, or 9999 when it is falsy. */
  function DefaultPort(v: Value): (r: Value)
    ensures Truthy(r)
    ensures Truthy(v) ==> r == v
    ensures !Truthy(v) ==> r == Number(DefaultPortNumber)
  {
    if Truthy(v) then v else Number(DefaultPortNumber)
  }

  /** The port as JavaScript renders it when concatenated with a string. */
  function PortText(v: Value): (r: string)
    ensures v.Number? ==> |r| > 0 && AllDigits(r)
  {
    match v
    case Text(s) => s
    case Number(n) => NatToString(n)
  }

  // ---------------------------------------------------------------------------
  // The compose topology

  datatype HealthCheck = HealthCheck(test: seq<string>, interval: string, retries: string)

  datatype Service = Service(
    image: string,
    ports: seq<string>,
    volumes: seq<string>,
    links: seq<string>,
    environment: map<string, string>,
    healthcheck: Option<HealthCheck>)

  datatype ComposeFile = ComposeFile(version: string, services: map<string, Service>, volumes: set<string>)

  /** A volume entry: `<source>:<target>`. */
  function Mount(source: string, target: string): string {
    source + ":" + target
  }

  const MysqlEnvironment: map<string, string> :=
    map["MYSQL_ROOT_PASSWORD" := "password", "MYSQL_DATABASE" := "wordpress_develop"]

  const MysqlHealthCheck := HealthCheck(
    ["CMD", "mysql", "-e", "SHOW TABLES FROM wordpress_develop", "-uroot", "-ppassword", "-hmysql", "--protocol=tcp"],
    "1s", "100")

  /** The services that serve the WordPress sources at `/var/www`. */
  const WebServices: set<string> := {"wordpress-develop", "php", "cli"}

  /** The compose file `startDocker` writes for a folder and a port. */
  function Topology(cwd: string, port: Value): ComposeFile
  {
    var folder := Normalize(cwd);
    ComposeFile("3", map[
      "wordpress-develop" := Service("nginx:alpine", [PortText(port) + ":80"],
                                     ["./site.conf:/etc/nginx/conf.d/default.conf", Mount(folder, "/var/www")],
                                     ["php"], map[], None),
      "php" := Service("garypendergast/wordpress-develop-php", [], [Mount(folder, "/var/www")], ["mysql"], map[], None),
      "cli" := Service("wordpress:cli", [], [Mount(folder, "/var/www")], [], map[], None),
      "mysql" := Service("mysql:5.7", [], ["mysql:/var/lib/mysql"], [], MysqlEnvironment, Some(MysqlHealthCheck)),
      "phpunit" := Service("garypendergast/wordpress-develop-phpunit", [], [Mount(folder, "/wordpress-develop")],
                           [], map[], None)],
      {"mysql"})
  }

  /**
   * The topology: the web server, PHP and WP-CLI serve the normalized folder
   * at `/var/www`, the test runner mounts it at `/wordpress-develop`, the web
   * server publishes the port on 80, and MySQL is configured and health-checked.
   */
  lemma TopologyShape(cwd: string, port: Value)
    ensures Topology(cwd, port).services.Keys == WebServices + {"mysql", "phpunit"}
    ensures Topology(cwd, port).services["wordpress-develop"].ports == [PortText(port) + ":80"]
    ensures forall name :: name in WebServices ==>
              Mount(Normalize(cwd), "/var/www") in Topology(cwd, port).services[name].volumes
    ensures Topology(cwd, port).services["phpunit"].volumes == [Mount(Normalize(cwd), "/wordpress-develop")]
    ensures Topology(cwd, port).services["mysql"].environment == MysqlEnvironment
    ensures Topology(cwd, port).services["mysql"].healthcheck == Some(MysqlHealthCheck)
    ensures Topology(cwd, port).services["mysql"].healthcheck.value.interval == "1s"
            && Topology(cwd, port).services["mysql"].healthcheck.value.retries == "100"
  {
  }

  /** A volume entry reads back to its source: the text before the last ':' (the target has none). */
  lemma MountReadsBack(source: string, target: string)
    requires ':' !in target
    ensures BeforeLast(Mount(source, target), ':') == source
  {
    BeforeLastAt(source, ':', target);
    assert Mount(source, target) == source + [':'] + target;
  }

  /** Every service of the topology that mounts the WordPress folder mounts the same normalized folder. */
  lemma TopologyMountsFolder(cwd: string, port: Value)
    ensures forall name :: name in WebServices ==>
              exists v :: v in Topology(cwd, port).services[name].volumes && BeforeLast(v, ':') == Normalize(cwd)
    ensures BeforeLast(Topology(cwd, port).services["phpunit"].volumes[0], ':') == Normalize(cwd)
  {
    TopologyShape(cwd, port);
    MountReadsBack(Normalize(cwd), "/var/www");
    MountReadsBack(Normalize(cwd), "/wordpress-develop");
  }

  /** A numeric port binds the host port it was given: the text before ':80' reads back to it. */
  lemma BoundPortReadsBack(n: nat)
    ensures ParseNat(BeforeLast(PortText(Number(n)) + ":80", ':')) == n
  {
    BeforeLastAt(NatToString(n), ':', "80");
    assert NatToString(n) + ":80" == NatToString(n) + [':'] + "80";
    ParseNatToString(n);
  }

  // ---------------------------------------------------------------------------
  // docker-machine env

  /**
   * The variable a line of the `docker-machine env` output assigns: the
   * second piece of a `SET` line that splits into at least three pieces.
   */
  function Assigned(line: string): Option<string> {
    if !StartsWith(line, "SET") then None
    else
      var parts := SetPieces(line);
      if |parts| >= 3 then Some(parts[1]) else None
  }

  /** `line.trim().split(/[ =]/)`, the pieces of an output line. */
  function SetPieces(line: string): seq<string> {
    Split(Trim(line), {' ', '='})
  }

  /**
   * One line of the `docker-machine env` output: `SET <name>=<value>` sets a
   * variable. A line that assigns nothing (a `REM` line, a blank line, a `SET`
   * line of fewer than three pieces) changes nothing, and a line that assigns
   * changes no variable but the one it names.
   */
  function EnvStep(env: map<string, string>, line: string): (r: map<string, string>)
    ensures env.Keys <= r.Keys
    ensures Assigned(line).None? ==> r == env
    ensures Assigned(line).Some? ==> var name := Assigned(line).value;
                                     name in r && r == env[name := r[name]]
  {
    if !StartsWith(line, "SET") then env
    else
      var parts := SetPieces(line);
      if |parts| >= 3 then env[parts[1] := parts[2]] else env
  }

  /** The `forEach` over the output lines, in order. */
  function EnvFold(env: map<string, string>, lines: seq<string>): map<string, string>
    decreases |lines|
  {
    if lines == [] then env
    else EnvStep(EnvFold(env, lines[..|lines| - 1]), lines[|lines| - 1])
  }

  /** Folding two blocks of lines is folding the first, then the second. */
  lemma {:induction false} EnvFoldAppend(env: map<string, string>, a: seq<string>, b: seq<string>)
    ensures EnvFold(env, a + b) == EnvFold(EnvFold(env, a), b)
    decreases |b|
  {
    if b == [] {
      assert a + b == a;
    } else {
      assert (a + b)[..|a + b| - 1] == a + b[..|b| - 1];
      EnvFoldAppend(env, a, b[..|b| - 1]);
    }
  }

  /** Variables are only ever added or overwritten, never removed. */
  lemma {:induction false} EnvFoldKeepsKeys(env: map<string, string>, lines: seq<string>)
    ensures env.Keys <= EnvFold(env, lines).Keys
    decreases |lines|
  {
    if lines != [] {
      EnvFoldKeepsKeys(env, lines[..|lines| - 1]);
    }
  }

  /** Folding one more line of a block applies that line to the fold so far. */
  lemma EnvFoldNext(env: map<string, string>, lines: seq<string>, i: nat)
    requires i < |lines|
    ensures EnvFold(env, lines[..i + 1]) == EnvStep(EnvFold(env, lines[..i]), lines[i])
  {
    assert lines[..i + 1][..i] == lines[..i];
  }

  /** The `forEach` over the `env` output, applying one line at a time. */
  method ApplyEnvLines(env: map<string, string>, lines: seq<string>) returns (r: map<string, string>)
    ensures r == EnvFold(env, lines)
  {
    r := env;
    var i := 0;
    while i < |lines|
      invariant 0 <= i <= |lines|
      invariant r == EnvFold(env, lines[..i])
    {
      EnvFoldNext(env, lines, i);
      r := EnvStep(r, lines[i]);
      i := i + 1;
    }
    assert lines[..|lines|] == lines;
  }

  /** A variable-free name or value: no separator and no white space. */
  predicate EnvWord(w: string) {
    |w| > 0 && NoSpace(w) && NoneOf(w, {' ', '='})
  }

  /** The assignment text `SET <name>=<value>`. */
  function SetText(name: string, value: string): string {
    "SET " + name + "=" + value
  }

  /** Trimming removes only the carriage return. */
  lemma SetLineTrim(name: string, value: string, cr: bool)
    requires EnvWord(name) && EnvWord(value)
    ensures Trim(SetText(name, value) + (if cr then "\r" else "")) == SetText(name, value)
  {
    var t := SetText(name, value);
    assert t[0] == 'S';
    assert !IsSpace(t[|t| - 1]) by { assert t[|t| - 1] == value[|value| - 1]; }
    TrimPadding("", t, if cr then "\r" else "");
    assert "" + t + (if cr then "\r" else "") == t + (if cr then "\r" else "");
  }

  /** The assignment text splits into the keyword, the name and the value. */
  lemma SetTextSplit(name: string, value: string)
    requires EnvWord(name) && EnvWord(value)
    ensures Split(SetText(name, value), {' ', '='}) == ["SET", name, value]
  {
    var seps := {' ', '='};
    assert SetText(name, value) == "SET" + [' '] + (name + ['='] + value);
    assert NoneOf("SET", seps);
    SplitFirst("SET", ' ', name + ['='] + value, seps);
    SplitFirst(name, '=', value, seps);
    SplitWhole(value, seps);
  }

  /** `SET <name>=<value>`, with or without a trailing carriage return, sets that variable. */
  lemma EnvSetLine(env: map<string, string>, name: string, value: string, cr: bool)
    requires EnvWord(name) && EnvWord(value)
    ensures EnvStep(env, SetText(name, value) + (if cr then "\r" else "")) == env[name := value]
  {
    var line := SetText(name, value) + (if cr then "\r" else "");
    assert line[..3] == "SET";
    SetLineTrim(name, value, cr);
    SetTextSplit(name, value);
  }

  /** Lines that never assign a variable leave its value as it was. */
  lemma {:induction false} EnvFoldUntouched(env: map<string, string>, lines: seq<string>, name: string)
    requires name in env
    requires forall i :: 0 <= i < |lines| ==> Assigned(lines[i]) != Some(name)
    ensures name in EnvFold(env, lines) && EnvFold(env, lines)[name] == env[name]
    decreases |lines|
  {
    if lines != [] {
      var front := lines[..|lines| - 1];
      EnvFoldUntouched(env, front, name);
      var before := EnvFold(env, front);
      var last := lines[|lines| - 1];
      assert Assigned(last) != Some(name);
      assert EnvFold(env, lines) == EnvStep(before, last);
    }
  }

  /**
   * A `SET` line for a variable wins over everything before it and keeps its
   * value through the lines after it that assign other variables (the `REM`
   * lines and the blank last line among them).
   */
  lemma LaterLineWins(env: map<string, string>, lines: seq<string>, name: string, value: string, rest: seq<string>)
    requires EnvWord(name) && EnvWord(value)
    requires forall line :: line in rest ==> Assigned(line) != Some(name)
    ensures var final := EnvFold(env, lines + [SetText(name, value)] + rest);
            name in final && final[name] == value
  {
    var line := SetText(name, value);
    var upTo := lines + [line];
    assert upTo[..|lines|] == lines;
    EnvSetLine(EnvFold(env, lines), name, value, false);
    assert line + "" == line;
    EnvFoldAppend(env, upTo, rest);
    assert forall i :: 0 <= i < |rest| ==> rest[i] in rest;
    EnvFoldUntouched(EnvFold(env, upTo), rest, name);
  }

  // ---------------------------------------------------------------------------
  // detectToolbox

  /** The columns of the `systeminfo /FO CSV` row that `detectToolbox` reads. */
  datatype SystemInfo = SystemInfo(osName: string, osVersion: string, hyperV: string)

  /** The `enabled` half of a `<requirement>: <enabled>` entry, trimmed and lower-cased; none without a ':'. */
  function Enabled(line: string): Option<string> {
    var parts := Split(line, {':'});
    if |parts| < 2 then None else Some(Lower(Trim(parts[1])))
  }

  /** The `reduce` over the Hyper-V requirement entries, from the accumulator `allowed`. */
  function HyperVAllowed(allowed: bool, lines: seq<string>): bool
    decreases |lines|
  {
    if lines == [] then allowed
    else HyperVAllowed(if Enabled(lines[0]) != Some("yes") then false else allowed, lines[1..])
  }

  /** Every requirement entry reads `yes`. */
  predicate AllEnabled(lines: seq<string>) {
    forall i :: 0 <= i < |lines| ==> Enabled(lines[i]) == Some("yes")
  }

  /** The reduce keeps `allowed` iff every entry is enabled; one missing requirement makes it false for good. */
  lemma {:induction false} HyperVAllowedIff(allowed: bool, lines: seq<string>)
    ensures HyperVAllowed(allowed, lines) == (allowed && AllEnabled(lines))
    decreases |lines|
  {
    if lines != [] {
      HyperVAllowedIff(if Enabled(lines[0]) != Some("yes") then false else allowed, lines[1..]);
      if AllEnabled(lines[1..]) {
        forall i | 0 <= i < |lines|
          ensures Enabled(lines[0]) == Some("yes") ==> Enabled(lines[i]) == Some("yes")
        {
          if i > 0 {
            assert lines[i] == lines[1..][i - 1];
          }
        }
      } else {
        var i :| 0 <= i < |lines[1..]| && Enabled(lines[1..][i]) != Some("yes");
        assert lines[i + 1] == lines[1..][i];
      }
    }
  }

  /**
   * `detectToolbox`: true for a system that is not Pro, not version 10 or
   * later, or older than build 14393; otherwise the Hyper-V reduce. Nothing
   * when a version pattern does not match, where the code reads `[0]` of a
   * failed match and throws.
   */
  function DetectToolbox(info: SystemInfo): (r: Option<bool>)
    ensures !Includes(info.osName, "Pro") ==> r == Some(true)
    ensures r.None? <==> Includes(info.osName, "Pro")
                         && (LeadingDigits(info.osVersion) == ""
                             || (ParseNat(LeadingDigits(info.osVersion)) >= 10 && TrailingDigits(info.osVersion) == ""))
    ensures r.Some? && !HyperVCapable(info) ==> r == Some(true)
  {
    if !Includes(info.osName, "Pro") then Some(true)
    else
      var major := LeadingDigits(info.osVersion);
      if major == "" then None
      else if ParseNat(major) < 10 then Some(true)
      else
        var build := TrailingDigits(info.osVersion);
        if build == "" then None
        else if ParseNat(build) < 14393 then Some(true)
        else Some(HyperVAllowed(true, Split(info.hyperV, {','})))
  }

  /** A Windows 10 Pro system of build 14393 or later. */
  predicate HyperVCapable(info: SystemInfo) {
    Includes(info.osName, "Pro")
    && LeadingDigits(info.osVersion) != "" && ParseNat(LeadingDigits(info.osVersion)) >= 10
    && TrailingDigits(info.osVersion) != "" && ParseNat(TrailingDigits(info.osVersion)) >= 14393
  }

  /**
   * On a capable system the answer is the Hyper-V reduce: Toolbox is
   * reported in use exactly when every requirement entry reads `yes`, and
   * not in use as soon as one entry is missing or says otherwise.
   */
  lemma DetectToolboxOnCapable(info: SystemInfo)
    requires HyperVCapable(info)
    ensures DetectToolbox(info) == Some(AllEnabled(Split(info.hyperV, {','})))
  {
    HyperVAllowedIff(true, Split(info.hyperV, {','}));
  }

  // ---------------------------------------------------------------------------
  // preferenceSaved

  /**
   * The restart test of `preferenceSaved`, as written: a `basic` preference
   * other than `wordpress-folder` whose value differs from the folder, or a
   * `site` / `port` value that is not strictly equal to the port.
   */
  predicate RestartWanted(section: string, preference: string, value: Value, cwd: string, port: Value) {
    (section == Basic && preference != WordPressFolder && value != Text(cwd))
    || (section == Site && preference == PortKey && value != port)
  }

  /** As written, changing the WordPress folder itself never restarts the stack. */
  lemma FolderChangeNeverRestarts(value: Value, cwd: string, port: Value)
    ensures !RestartWanted(Basic, WordPressFolder, value, cwd, port)
  {
    assert Basic != Site;
  }

  /** As written, saving the Gutenberg folder restarts the stack whenever it differs from the WordPress folder. */
  lemma OtherFolderRestarts(value: string, cwd: string, port: Value)
    requires value != cwd
    ensures RestartWanted(Basic, GutenbergFolder, Text(value), cwd, port)
  {
    assert GutenbergFolder != WordPressFolder by { assert GutenbergFolder[0] != WordPressFolder[0]; }
  }

  /**
   * The port is compared strictly: a port saved as text differs from every
   * numeric port, the typed '9999' from the default 9999 among them.
   */
  lemma TypedPortRestarts(cwd: string, typed: string, port: nat)
    ensures RestartWanted(Site, PortKey, Text(typed), cwd, Number(port))
  {
  }

  // ---------------------------------------------------------------------------
  // installWordPress

  /** What the WP-CLI queries and the file check answer: `config path`, the config in `build/`, `core is-installed`. */
  datatype SiteState = SiteState(hasConfig: bool, configInBuild: bool, installed: bool)

  const ConfigPathArgs := ["config", "path"]
  const ConfigCreateArgs := ["config", "create", "--dbname=wordpress_develop", "--dbuser=root",
                             "--dbpass=password", "--dbhost=mysql", "--path=/var/www/html/build"]
  const IsInstalledArgs := ["core", "is-installed"]

  function DebugConstantArgs(name: string): seq<string> {
    ["config", "set", name, "true", "--raw", "--type=constant"]
  }

  function SiteUrl(port: Value): string {
    "http://localhost:" + PortText(port)
  }

  function CoreInstallArgs(port: Value): seq<string> {
    ["core", "install", "--url=localhost:" + PortText(port), "--title=WordPress Develop", "--admin_user=admin",
     "--admin_password=password", "--admin_email=test@test.test", "--skip-email"]
  }

  /** Creating the configuration: the file, moved out of `build/` when it landed there, and the three debug constants. */
  function ConfigSteps(cwd: string, env: map<string, string>, configInBuild: bool): seq<Effect> {
    [Run(WpCli(ConfigCreateArgs, env))]
    + (if configInBuild then [Rename(cwd + "/build/wp-config.php", cwd + "/wp-config.php")] else [])
    + [Run(WpCli(DebugConstantArgs("WP_DEBUG"), env)), Run(WpCli(DebugConstantArgs("SCRIPT_DEBUG"), env)),
       Run(WpCli(DebugConstantArgs("WP_DEBUG_DISPLAY"), env))]
  }

  /** Pointing an installed site at the port, or installing it. */
  function SiteSteps(port: Value, env: map<string, string>, installed: bool): seq<Effect> {
    if installed then
      [Run(WpCli(["option", "update", "home", SiteUrl(port)], env)),
       Run(WpCli(["option", "update", "siteurl", SiteUrl(port)], env))]
    else [Run(WpCli(CoreInstallArgs(port), env))]
  }

  /** The commands `installWordPress` runs, after the health poll. */
  function InstallScript(cwd: string, port: Value, env: map<string, string>, site: SiteState): (r: seq<Effect>)
    ensures |r| >= 4 && r[0] == Report("warning", BuildingMessage) && r[|r| - 1] == Report("okay", ReadyMessage)
  {
    [Report("warning", BuildingMessage), Run(WpCli(ConfigPathArgs, env))]
    + (if site.hasConfig then [] else ConfigSteps(cwd, env, site.configInBuild))
    + [Run(WpCli(IsInstalledArgs, env))]
    + SiteSteps(port, env, site.installed)
    + [Report("okay", ReadyMessage)]
  }

  /** An effect of the install script comes from one of its five blocks. */
  lemma InstallScriptMembers(cwd: string, port: Value, env: map<string, string>, site: SiteState, e: Effect)
    ensures e in InstallScript(cwd, port, env, site) <==>
              e == Report("warning", BuildingMessage) || e == Run(WpCli(ConfigPathArgs, env))
              || (!site.hasConfig && e in ConfigSteps(cwd, env, site.configInBuild))
              || e == Run(WpCli(IsInstalledArgs, env))
              || e in SiteSteps(port, env, site.installed)
              || e == Report("okay", ReadyMessage)
  {
    var config := if site.hasConfig then [] else ConfigSteps(cwd, env, site.configInBuild);
    assert InstallScript(cwd, port, env, site)
           == [Report("warning", BuildingMessage), Run(WpCli(ConfigPathArgs, env))] + config
              + [Run(WpCli(IsInstalledArgs, env))] + SiteSteps(port, env, site.installed) + [Report("okay", ReadyMessage)];
  }

  /** The configuration is created iff `config path` fails. */
  lemma ConfigCreatedIff(cwd: string, port: Value, env: map<string, string>, site: SiteState)
    ensures Run(WpCli(ConfigCreateArgs, env)) in InstallScript(cwd, port, env, site) <==> !site.hasConfig
  {
    var e := Run(WpCli(ConfigCreateArgs, env));
    InstallScriptMembers(cwd, port, env, site, e);
    assert |ConfigCreateArgs| != |ConfigPathArgs| && |ConfigCreateArgs| != |IsInstalledArgs|;
    forall s | s in SiteSteps(port, env, site.installed)
      ensures s != e
    {
      assert s.job.args[0] != ConfigCreateArgs[0];
    }
    assert ConfigSteps(cwd, env, site.configInBuild)[0] == e;
  }

  /** WordPress is installed iff `core is-installed` fails; an installed site has its URLs re-pointed instead. */
  lemma CoreInstalledIff(cwd: string, port: Value, env: map<string, string>, site: SiteState)
    ensures Run(WpCli(CoreInstallArgs(port), env)) in InstallScript(cwd, port, env, site) <==> !site.installed
    ensures Run(WpCli(["option", "update", "home", SiteUrl(port)], env)) in InstallScript(cwd, port, env, site)
            <==> site.installed
  {
    var e := Run(WpCli(CoreInstallArgs(port), env));
    var home := Run(WpCli(["option", "update", "home", SiteUrl(port)], env));
    InstallScriptMembers(cwd, port, env, site, e);
    InstallScriptMembers(cwd, port, env, site, home);
    assert |CoreInstallArgs(port)| != |ConfigPathArgs| && |CoreInstallArgs(port)| != |IsInstalledArgs|;
    assert |home.job.args| != |ConfigPathArgs| && |home.job.args| != |IsInstalledArgs|;
    assert |home.job.args| != |CoreInstallArgs(port)|;
    forall c | c in ConfigSteps(cwd, env, site.configInBuild)
      ensures c != e && c != home
    {
      if c.Run? {
        assert c.job.args[0] != CoreInstallArgs(port)[0] && c.job.args[0] != home.job.args[0];
      }
    }
    assert SiteSteps(port, env, site.installed)[0] == (if site.installed then home else e);
  }

  /** On a configured, installed site the handler only queries and re-points the URLs: it creates and installs nothing. */
  lemma SecondInstallOnlyUpdatesUrls(cwd: string, port: Value, env: map<string, string>, configInBuild: bool)
    ensures InstallScript(cwd, port, env, SiteState(true, configInBuild, true))
            == [Report("warning", BuildingMessage), Run(WpCli(ConfigPathArgs, env)), Run(WpCli(IsInstalledArgs, env)),
                Run(WpCli(["option", "update", "home", SiteUrl(port)], env)),
                Run(WpCli(["option", "update", "siteurl", SiteUrl(port)], env)),
                Report("okay", ReadyMessage)]
  {
  }

  /** Appending five blocks one after the other appends their concatenation. */
  lemma SeqAssoc(log: seq<Effect>, a: seq<Effect>, b: seq<Effect>, c: seq<Effect>, d: seq<Effect>, e: seq<Effect>)
    ensures log + a + b + c + d + e == log + (a + b + c + d + e)
  {
  }

  /** Appending four blocks one after the other appends their concatenation. */
  lemma SeqAssoc4(log: seq<Effect>, a: seq<Effect>, b: seq<Effect>, c: seq<Effect>, d: seq<Effect>)
    ensures log + a + b + c + d == log + (a + b + c + d)
  {
  }

  // ---------------------------------------------------------------------------
  // startDocker

  /** The Toolbox preparation of `startDockerMachine`: start the machine, forward the port, ask for the env. */
  function MachineScript(port: Value): seq<Effect> {
    [MachineStart,
     Run(VBoxManage(["controlvm", "\"default\"", "natpf1", "delete", "wphttp"])),
     Run(VBoxManage(["controlvm", "\"default\"", "natpf1",
                     "wphttp,tcp,127.0.0.1," + PortText(port) + ",," + PortText(port)])),
     Run(DockerMachine(["env", "default", "--shell", "cmd"]))]
  }

  /** The environment after `startDocker`: the machine's variables folded in when it runs under Toolbox. */
  function EnvAfterStart(folder: string, env: map<string, string>, toolbox: bool, machineEnv: string): map<string, string> {
    if folder != "" && toolbox then EnvFold(env, Lines(machineEnv)) else env
  }

  /**
   * What `startDocker` does once the preferences are read, with `env` the
   * environment after the machine step: nothing without a folder; otherwise
   * write the topology, copy the nginx configuration, prepare the machine
   * under Toolbox, bring the stack up, report, register the install
   * handler, and install at once when the first build has already finished.
   */
  function StartLog(folder: string, port: Value, env: map<string, string>, toolbox: bool,
                    fired: set<string>, site: SiteState): (r: seq<Effect>)
    ensures folder == "" <==> r == []
  {
    if folder == "" then []
    else
      WriteSteps
      + (if toolbox then MachineScript(port) else [])
      + UpSteps(env)
      + (if GruntFirstRunFinished in fired then InstallScript(folder, port, env, site) else [])
  }

  /** Writing the compose file and copying the nginx configuration. */
  const WriteSteps := [WriteFile(ComposePath), CopyFile(ConfSource, ConfTarget)]

  /** Bringing the stack up, reporting, and waiting for the first build. */
  function UpSteps(env: map<string, string>): seq<Effect> {
    [Run(Compose(["up", "-d"], env)), Report("warning", BuildingMessage),
     Listen(GruntFirstRunFinished, "installWordPress")]
  }

  /** Once a folder is set, the start-up is the four blocks one after the other. */
  lemma StartLogParts(folder: string, port: Value, env: map<string, string>, toolbox: bool,
                      fired: set<string>, site: SiteState)
    requires folder != ""
    ensures StartLog(folder, port, env, toolbox, fired, site)
            == WriteSteps + (if toolbox then MachineScript(port) else []) + UpSteps(env)
               + (if GruntFirstRunFinished in fired then InstallScript(folder, port, env, site) else [])
  {
  }

  /** The site is reported ready by `startDocker` iff a folder is set and the first build has finished. */
  lemma StartReportsReadyIff(folder: string, port: Value, env: map<string, string>, toolbox: bool,
                             fired: set<string>, site: SiteState)
    ensures Report("okay", ReadyMessage) in StartLog(folder, port, env, toolbox, fired, site)
            <==> folder != "" && GruntFirstRunFinished in fired
  {
    if folder != "" {
      var pre := WriteSteps + (if toolbox then MachineScript(port) else []) + UpSteps(env);
      var install := if GruntFirstRunFinished in fired then InstallScript(folder, port, env, site) else [];
      assert StartLog(folder, port, env, toolbox, fired, site) == pre + install;
      assert "warning" != "okay";
      assert Report("okay", ReadyMessage) !in pre;
      if GruntFirstRunFinished in fired {
        assert install[|install| - 1] in install;
      }
    }
  }

  /** The start of the Docker Machine. */
  const MachineStart := Run(DockerMachine(["start", "default"]))

  /** The install script only runs WP-CLI commands: it never starts the Docker Machine. */
  lemma InstallStartsNoMachine(cwd: string, port: Value, env: map<string, string>, site: SiteState)
    ensures MachineStart !in InstallScript(cwd, port, env, site)
  {
    InstallScriptMembers(cwd, port, env, site, MachineStart);
    assert MachineStart !in ConfigSteps(cwd, env, site.configInBuild);
    assert MachineStart !in SiteSteps(port, env, site.installed);
  }

  /** The Docker Machine is started iff a folder is set and Toolbox is in use. */
  lemma StartsMachineIff(folder: string, port: Value, env: map<string, string>, toolbox: bool,
                         fired: set<string>, site: SiteState)
    ensures MachineStart in StartLog(folder, port, env, toolbox, fired, site) <==> folder != "" && toolbox
  {
    if folder != "" {
      var machine := if toolbox then MachineScript(port) else [];
      var install := if GruntFirstRunFinished in fired then InstallScript(folder, port, env, site) else [];
      StartLogParts(folder, port, env, toolbox, fired, site);
      InstallStartsNoMachine(folder, port, env, site);
      assert MachineStart !in install;
      assert MachineStart !in WriteSteps + UpSteps(env);
      assert toolbox ==> MachineScript(port)[0] == MachineStart;
      assert MachineStart in machine <==> toolbox;
    }
  }

  /** The stack is brought up only after the topology has been written. */
  lemma StartWritesBeforeUp(folder: string, port: Value, env: map<string, string>, toolbox: bool,
                            fired: set<string>, site: SiteState)
    requires folder != ""
    ensures var r := StartLog(folder, port, env, toolbox, fired, site);
            r[0] == WriteFile(ComposePath)
            && exists i :: 0 < i < |r| && r[i] == Run(Compose(["up", "-d"], env))
  {
    var r := StartLog(folder, port, env, toolbox, fired, site);
    var i := 2 + (if toolbox then 4 else 0);
    assert r[i] == Run(Compose(["up", "-d"], env));
  }

  /** The `systeminfo` query `registerDockerJob` runs on Windows. */
  function ToolboxQuery(isWindows: bool): seq<Effect> {
    if isWindows then [Run(SystemInfoQuery(["/FO", "CSV"]))] else []
  }

  /** The two handlers `registerDockerJob` adds. */
  const Registrations := [Listen(Effects.PreferenceSaved, "preferenceSaved"), Listen(Effects.Shutdown, "shutdown")]

  // ---------------------------------------------------------------------------
  // The module state

  class DockerManager {
    var cwd: string
    var port: Value
    var dockerEnv: map<string, string>
    var usingToolbox: bool
    /** The compose file last written to the tools directory. */
    var compose: Option<ComposeFile>
    var log: seq<Effect>

    /** The module-level state before `registerDockerJob` runs. */
    constructor ()
      ensures cwd == "" && port == Number(DefaultPortNumber) && dockerEnv == map[] && !usingToolbox
      ensures compose == None && log == []
    {
      cwd := "";
      port := Number(DefaultPortNumber);
      dockerEnv := map[];
      usingToolbox := false;
      compose := None;
      log := [];
    }

    /**
     * `registerDockerJob`: on Windows, asks `systeminfo` whether Toolbox is
     * in use (stopping there when the answer cannot be read); registers the
     * handlers; starts Docker.
     */
    method RegisterDockerJob(isWindows: bool, info: SystemInfo, prefs: Prefs, machineEnv: string,
                             fired: set<string>, site: SiteState)
      modifies this
      ensures isWindows && DetectToolbox(info).None? ==>
                log == old(log) + ToolboxQuery(isWindows)
                && cwd == old(cwd) && port == old(port) && dockerEnv == old(dockerEnv)
                && usingToolbox == old(usingToolbox) && compose == old(compose)
      ensures !(isWindows && DetectToolbox(info).None?) ==>
                usingToolbox == (if isWindows then DetectToolbox(info).value else old(usingToolbox))
                && cwd == prefs.folder && port == DefaultPort(prefs.port)
                && dockerEnv == EnvAfterStart(prefs.folder, old(dockerEnv), usingToolbox, machineEnv)
                && compose == (if prefs.folder == "" then old(compose) else Some(Topology(cwd, port)))
                && log == old(log) + ToolboxQuery(isWindows) + Registrations
                          + StartLog(cwd, port, dockerEnv, usingToolbox, fired, site)
    {
      var answered := QueryToolbox(isWindows, info);
      if !answered {
        return;
      }
      Note(Registrations);
      StartDocker(prefs, machineEnv, fired, site);
    }

    /** The Windows half of `registerDockerJob`: `USING_TOOLBOX = await detectToolbox()`, which throws when unreadable. */
    method QueryToolbox(isWindows: bool, info: SystemInfo) returns (answered: bool)
      modifies this
      ensures answered <==> !(isWindows && DetectToolbox(info).None?)
      ensures usingToolbox == (if isWindows && answered then DetectToolbox(info).value else old(usingToolbox))
      ensures cwd == old(cwd) && port == old(port) && dockerEnv == old(dockerEnv) && compose == old(compose)
      ensures log == old(log) + ToolboxQuery(isWindows)
    {
      if !isWindows {
        assert log + [] == log;
        return true;
      }
      log := log + ToolboxQuery(isWindows);
      var toolbox := DetectToolbox(info);
      if toolbox.None? {
        return false;
      }
      usingToolbox := toolbox.value;
      answered := true;
    }

    /**
     * `startDocker`: reads the folder and the port (9999 when falsy), bails
     * when the folder is unset, and otherwise does what `StartLog` says.
     */
    method StartDocker(prefs: Prefs, machineEnv: string, fired: set<string>, site: SiteState)
      modifies this
      ensures cwd == prefs.folder && port == DefaultPort(prefs.port) && usingToolbox == old(usingToolbox)
      ensures dockerEnv == EnvAfterStart(prefs.folder, old(dockerEnv), usingToolbox, machineEnv)
      ensures compose == (if prefs.folder == "" then old(compose) else Some(Topology(cwd, port)))
      ensures log == old(log) + StartLog(cwd, port, dockerEnv, usingToolbox, fired, site)
    {
      cwd := prefs.folder;
      port := DefaultPort(prefs.port);
      if cwd == "" || !Truthy(port) {
        return;
      }
      BringUp(machineEnv, fired, site);
    }

    /** The part of `startDocker` after the preferences have been read and found set. */
    method BringUp(machineEnv: string, fired: set<string>, site: SiteState)
      requires cwd != ""
      modifies this
      ensures cwd == old(cwd) && port == old(port) && usingToolbox == old(usingToolbox)
      ensures dockerEnv == EnvAfterStart(cwd, old(dockerEnv), usingToolbox, machineEnv)
      ensures compose == Some(Topology(cwd, port))
      ensures log == old(log) + StartLog(cwd, port, dockerEnv, usingToolbox, fired, site)
    {
      compose := Some(Topology(cwd, port));
      Note(WriteSteps);
      MachineIfToolbox(machineEnv);
      Note(UpSteps(dockerEnv));
      InstallIfBuilt(fired, site);
      SeqAssoc4(old(log), WriteSteps, if usingToolbox then MachineScript(port) else [], UpSteps(dockerEnv),
                if GruntFirstRunFinished in fired then InstallScript(cwd, port, dockerEnv, site) else []);
      StartLogParts(cwd, port, dockerEnv, usingToolbox, fired, site);
    }

    /** `if ( USING_TOOLBOX ) await startDockerMachine()` */
    method MachineIfToolbox(machineEnv: string)
      modifies this
      ensures cwd == old(cwd) && port == old(port) && usingToolbox == old(usingToolbox) && compose == old(compose)
      ensures dockerEnv == (if usingToolbox then EnvFold(old(dockerEnv), Lines(machineEnv)) else old(dockerEnv))
      ensures log == old(log) + (if usingToolbox then MachineScript(port) else [])
    {
      if usingToolbox {
        StartDockerMachine(machineEnv);
      } else {
        assert log + [] == log;
      }
    }

    /** `if ( didAction( 'grunt_watch_first_run_finished' ) ) installWordPress()` */
    method InstallIfBuilt(fired: set<string>, site: SiteState)
      modifies this
      ensures cwd == old(cwd) && port == old(port) && dockerEnv == old(dockerEnv)
      ensures usingToolbox == old(usingToolbox) && compose == old(compose)
      ensures log == old(log) + (if GruntFirstRunFinished in fired then InstallScript(cwd, port, dockerEnv, site) else [])
    {
      if GruntFirstRunFinished in fired {
        InstallWordPress(site);
      } else {
        assert log + [] == log;
      }
    }

    /** Appends `es` to the log and changes nothing else. */
    method Note(es: seq<Effect>)
      modifies this
      ensures cwd == old(cwd) && port == old(port) && dockerEnv == old(dockerEnv)
      ensures usingToolbox == old(usingToolbox) && compose == old(compose)
      ensures log == old(log) + es
    {
      log := log + es;
    }

    /**
     * `startDockerMachine`: starts the machine, forwards the port, and folds
     * the `SET` lines of its `env` output into the environment.
     */
    method StartDockerMachine(machineEnv: string)
      modifies this
      ensures cwd == old(cwd) && port == old(port) && usingToolbox == old(usingToolbox) && compose == old(compose)
      ensures dockerEnv == EnvFold(old(dockerEnv), Lines(machineEnv))
      ensures log == old(log) + MachineScript(port)
    {
      log := log + MachineScript(port);
      dockerEnv := ApplyEnvLines(dockerEnv, Lines(machineEnv));
    }

  /**
     * `installWordPress`, after the health poll: checks for a configuration
     * and creates it when missing, then re-points or installs the site, and
     * reports `okay`.
     */
    method InstallWordPress(site: SiteState)
      modifies this
      ensures cwd == old(cwd) && port == old(port) && dockerEnv == old(dockerEnv)
      ensures usingToolbox == old(usingToolbox) && compose == old(compose)
      ensures log == old(log) + InstallScript(cwd, port, dockerEnv, site)
    {
      var opening := [Report("warning", BuildingMessage), Run(WpCli(ConfigPathArgs, dockerEnv))];
      Note(opening);
      var config: seq<Effect> := [];
      if !site.hasConfig {
        config := ConfigSteps(cwd, dockerEnv, site.configInBuild);
      }
      Note(config);
      var check := [Run(WpCli(IsInstalledArgs, dockerEnv))];
      Note(check);
      var steps := SiteSteps(port, dockerEnv, site.installed);
      Note(steps);
      var closing := [Report("okay", ReadyMessage)];
      Note(closing);
      SeqAssoc(old(log), opening, config, check, steps, closing);
    }

    /**
     * `preferenceSaved`: when `RestartWanted` holds, brings the stack down
     * and, once that has finished, starts Docker again from the saved
     * preferences; otherwise does nothing.
     */
    method PreferenceSaved(section: string, preference: string, value: Value, prefs: Prefs, machineEnv: string,
                           fired: set<string>, site: SiteState)
      modifies this
      ensures !RestartWanted(section, preference, value, old(cwd), old(port)) ==>
                cwd == old(cwd) && port == old(port) && dockerEnv == old(dockerEnv)
                && usingToolbox == old(usingToolbox) && compose == old(compose) && log == old(log)
      ensures RestartWanted(section, preference, value, old(cwd), old(port)) ==>
                cwd == prefs.folder && port == DefaultPort(prefs.port) && usingToolbox == old(usingToolbox)
                && dockerEnv == EnvAfterStart(prefs.folder, old(dockerEnv), usingToolbox, machineEnv)
                && compose == (if prefs.folder == "" then old(compose) else Some(Topology(cwd, port)))
                && log == old(log) + [Run(Compose(["down"], old(dockerEnv)))]
                          + StartLog(cwd, port, dockerEnv, usingToolbox, fired, site)
    {
      if !RestartWanted(section, preference, value, cwd, port) {
        return;
      }
      log := log + [Run(Compose(["down"], dockerEnv))];
      StartDocker(prefs, machineEnv, fired, site);
    }

    /** `shutdown`: brings the stack down. */
    method Shutdown()
      modifies this
      ensures cwd == old(cwd) && port == old(port) && dockerEnv == old(dockerEnv)
      ensures usingToolbox == old(usingToolbox) && compose == old(compose)
      ensures log == old(log) + [Run(Compose(["down"], dockerEnv))]
    {
      log := log + [Run(Compose(["down"], dockerEnv))];
    }
  }
}
