/** The acquisition-and-staging pipeline of `pad.py`: the location
    descriptors, the configuration record, the choice of sources from the
    settings file, the script-set resolver, the two acquisition steps and the
    staging copies. */
module Pad {
  import opened Wrappers
  import opened Paths
  import opened Files
  import Urls

  /** Where a remote toolkit is cloned (`PlasoPath.base_path`). */
  const PlasoBase := "plaso/"
  /** Where a remote script collection is cloned (`ScriptsPath.base_path`). */
  const ScriptsBase := "single-file-utils/"
  /** `Config.work_dir`: the build context the scripts are staged into. */
  const DefaultWorkDir := "plaso/config/docker/"
  /** The `Config` dataclass's default scripts location. */
  const DefaultScriptsLocation := "single-file-utils"
  /** `check_config`'s fallback for the `parsers` key. */
  const DefaultParsers := "./single-file-utils/"

  datatype PadError =
    | ConfigSectionMissing          // KeyError: no [PAD] section
    | FetchFailed(dest: string)     // the clone raised
    | DirectoryMissing(dir: string) // FileExistsError
    | ParsersMissing                // FileNotFoundError, parser/reader/start group
    | BuilderMissing                // FileNotFoundError, Dockerfile/switch group
    | StageFailed(cause: CopyError) // shutil.copy raised

  /** `ToolPath` and its two subclasses `PlasoPath` and `ScriptsPath`, which
      differ only in their `__post_init__`: one constructor each. */
  class ToolPath {
    var path: string
    var basePath: Option<string>

    /** `ToolPath(path, base_path=None)`: the path is made absolute, by the
        platform's `abspath`, only when it exists. */
    constructor (path: string, fs: FileSystem, absPath: string -> string, basePath: Option<string> := None)
      ensures this.path == (if fs.State().Exists(path) then absPath(path) else path)
      ensures this.basePath == basePath
    {
      this.path := path;
      this.basePath := basePath;
      new;
      if IsPath(fs) {
        this.path := absPath(this.path);
      }
    }

    /** `PlasoPath(path)`: the parent's normalisation is not run; the path is
        kept as given and the clone directory is fixed. */
    constructor Plaso(path: string)
      ensures this.path == path && basePath == Some(PlasoBase)
    {
      this.path := path;
      basePath := Some(PlasoBase);
    }

    /** `ScriptsPath(path)`, likewise with its own clone directory. */
    constructor Scripts(path: string)
      ensures this.path == path && basePath == Some(ScriptsBase)
    {
      this.path := path;
      basePath := Some(ScriptsBase);
    }

    /** `is_url`: the location is a remote reference. */
    function IsUrl(): (r: bool)
      reads this
      ensures r <==> Urls.IsRemote(path)
    {
      Urls.IsUrlIff(path);
      Urls.IsUrl(path)
    }

    /** `is_path`: the location exists on the filesystem, as a file or a
        directory. */
    function IsPath(fs: FileSystem): (r: bool)
      reads this, fs
      ensures r <==> path in fs.files || path in fs.dirs
    {
      fs.State().Exists(path)
    }

    /** `to_string`: the stored location. */
    function ToString(): (r: string)
      reads this
      ensures r == path
    {
      path
    }
  }

  /** The `Config` dataclass. The five script fields are `None` until
      `get_scripts` fills them. */
  class Config {
    var plasoPath: ToolPath
    var scripts: ToolPath
    var plasoParser: Option<string>
    var regReader: Option<string>
    var plasoStart: Option<string>
    var workDir: string
    var switch: Option<string>
    var dockerfile: Option<string>

    /** Both locations are of their subclass: each has its fixed clone
        directory. */
    ghost predicate Valid()
      reads this, plasoPath, scripts
    {
      plasoPath.basePath == Some(PlasoBase) && scripts.basePath == Some(ScriptsBase)
    }

    /** `Config(plaso_path, scripts)` and its `__post_init__`, which wraps the
        two strings into their descriptors. */
    constructor (plasoPath: string := Urls.DefaultToolkit, scripts: string := DefaultScriptsLocation)
      ensures Valid() && fresh(this.plasoPath) && fresh(this.scripts)
      ensures this.plasoPath.path == plasoPath && this.scripts.path == scripts
      ensures plasoParser == None && regReader == None && plasoStart == None
      ensures switch == None && dockerfile == None && workDir == DefaultWorkDir
    {
      this.plasoPath := new ToolPath.Plaso(plasoPath);
      this.scripts := new ToolPath.Scripts(scripts);
      plasoParser, regReader, plasoStart := None, None, None;
      switch, dockerfile := None, None;
      workDir := DefaultWorkDir;
    }

    /** `set_parsers_path`: each argument goes to its own field; the
        locations and the work directory are untouched. */
    method SetParsersPath(plP: string, rRd: string, plS: string, swP: string, dfP: string)
      modifies this
      ensures plasoParser == Some(plP) && regReader == Some(rRd) && plasoStart == Some(plS)
      ensures switch == Some(swP) && dockerfile == Some(dfP)
      ensures plasoPath == old(plasoPath) && scripts == old(scripts) && workDir == old(workDir)
    {
      plasoParser := Some(plP);
      plasoStart := Some(plS);
      regReader := Some(rRd);
      switch := Some(swP);
      dockerfile := Some(dfP);
    }

    /** `set_plaso_path`: a new `PlasoPath` for `path`; nothing else changes. */
    method SetPlasoPath(path: string)
      modifies this
      ensures fresh(plasoPath) && plasoPath.path == path && plasoPath.basePath == Some(PlasoBase)
      ensures scripts == old(scripts) && workDir == old(workDir)
      ensures plasoParser == old(plasoParser) && regReader == old(regReader)
      ensures plasoStart == old(plasoStart) && switch == old(switch) && dockerfile == old(dockerfile)
    {
      plasoPath := new ToolPath.Plaso(path);
    }
  }

  // ---------------------------------------------------------------------
  // check_config

  /** The two locations `check_config` hands to `Config`. */
  datatype Sources = Sources(plasoDocker: string, scripts: string)

  /** `SectionProxy.get(key, fallback)` */
  function Lookup(section: map<string, string>, key: string, fallback: string): string {
    if key in section then section[key] else fallback
  }

  /** The selection rule of `check_config` over the parsed settings (section
      name to key/value map): the toolkit location or its default; the
      `parsers_link` override when it is non-empty, else `parsers` or its
      default. A missing `[PAD]` section raises. */
  function SelectSources(ini: map<string, map<string, string>>): (r: Result<Sources, PadError>)
    ensures r.Failure? <==> "PAD" !in ini
    ensures r.Failure? ==> r.error == ConfigSectionMissing
    ensures r.Success? ==>
      r.value.plasoDocker == (if "plaso_docker" in ini["PAD"] then ini["PAD"]["plaso_docker"] else Urls.DefaultToolkit)
    ensures r.Success? && "parsers_link" in ini["PAD"] && ini["PAD"]["parsers_link"] != "" ==>
      r.value.scripts == ini["PAD"]["parsers_link"]
    ensures r.Success? && !("parsers_link" in ini["PAD"] && ini["PAD"]["parsers_link"] != "") ==>
      r.value.scripts == (if "parsers" in ini["PAD"] then ini["PAD"]["parsers"] else DefaultParsers)
  {
    if "PAD" !in ini then Failure(ConfigSectionMissing)
    else
      var pad := ini["PAD"];
      var plasoDocker := Lookup(pad, "plaso_docker", Urls.DefaultToolkit);
      var parsers := Lookup(pad, "parsers", DefaultParsers);
      var parsersLink := Lookup(pad, "parsers_link", "");
      if parsersLink == "" then Success(Sources(plasoDocker, parsers))
      else Success(Sources(plasoDocker, parsersLink))
  }

  /** A non-empty override decides the scripts location whatever `parsers`
      says. */
  lemma OverrideIgnoresParsers(ini: map<string, map<string, string>>, parsers: string)
    requires "PAD" in ini && "parsers_link" in ini["PAD"] && ini["PAD"]["parsers_link"] != ""
    ensures SelectSources(ini["PAD" := ini["PAD"]["parsers" := parsers]]) == SelectSources(ini)
  {
  }

  /** `check_config`: a fresh configuration for the selected locations. */
  method CheckConfig(ini: map<string, map<string, string>>) returns (r: Result<Config, PadError>)
    ensures r.Failure? <==> SelectSources(ini).Failure?
    ensures r.Failure? ==> r.error == SelectSources(ini).error
    ensures r.Success? ==>
      var c := r.value;
      fresh(c) && fresh(c.plasoPath) && fresh(c.scripts) && c.Valid() &&
      c.plasoPath.path == SelectSources(ini).value.plasoDocker &&
      c.scripts.path == SelectSources(ini).value.scripts &&
      c.plasoParser == None && c.regReader == None && c.plasoStart == None &&
      c.switch == None && c.dockerfile == None && c.workDir == DefaultWorkDir
  {
    var sel := SelectSources(ini);
    if sel.Failure? {
      return Failure(sel.error);
    }
    var c := new Config(plasoPath := sel.value.plasoDocker, scripts := sel.value.scripts);
    return Success(c);
  }

  // ---------------------------------------------------------------------
  // scripts_from_dir

  function ParserScript(d: string): string { Join(Join(d, "plaso_parser"), "p2.py") }
  function ReaderScript(d: string): string { Join(Join(d, "reg_reader"), "registry_reader.py") }
  function StartScript(d: string): string { Join(Join(d, "start_pl"), "start_pl.sh") }
  function DockerfileScript(d: string): string { Join(Join(d, "start_pl"), "Dockerfile.dev") }
  function SwitchScript(d: string): string { Join(Join(d, "start_pl"), "plaso-switch.dev.sh") }

  /** The resolver's result, in its order. */
  function ManifestPaths(d: string): seq<string> {
    [ParserScript(d), ReaderScript(d), StartScript(d), DockerfileScript(d), SwitchScript(d)]
  }

  /** The parser/reader/start group: one diagnostic for all three. */
  ghost predicate TrioPresent(s: FsState, d: string) {
    s.Exists(ParserScript(d)) && s.Exists(ReaderScript(d)) && s.Exists(StartScript(d))
  }

  /** The Dockerfile/switch group. */
  ghost predicate PairPresent(s: FsState, d: string) {
    s.Exists(DockerfileScript(d)) && s.Exists(SwitchScript(d))
  }

  /** What `scripts_from_dir(d)` returns or raises on a filesystem: the
      directory is checked first, then the first group, then the second. */
  ghost function Resolution(s: FsState, d: string): Result<seq<string>, PadError> {
    if !s.IsDir(d) then Failure(DirectoryMissing(d))
    else if !TrioPresent(s, d) then Failure(ParsersMissing)
    else if !PairPresent(s, d) then Failure(BuilderMissing)
    else Success(ManifestPaths(d))
  }

  /** A path built as `join(d, dir, name)` is `d` joined with the relative
      path `dir/name`, and its file name is `name`. */
  lemma EntryLayout(d: string, dir: string, name: string, rel: string)
    requires dir != [] && !StartsWithSep(dir) && !EndsWithSep(dir)
    requires PlainName(name) && rel == dir + "/" + name
    ensures Join(Join(d, dir), name) == Join(d, rel)
    ensures Basename(Join(Join(d, dir), name)) == name
  {
    assert !StartsWithSep(name) by {
      if |name| > 0 {
        assert name[0] in name;
      }
    }
    JoinAssociative(d, dir, name);
    BasenameOfJoin(Join(d, dir), name);
    BasenameOfName(name);
  }

  lemma ParserLayout(d: string)
    ensures ParserScript(d) == Join(d, "plaso_parser/p2.py") && Basename(ParserScript(d)) == "p2.py"
  {
    EntryLayout(d, "plaso_parser", "p2.py", "plaso_parser/p2.py");
  }

  lemma ReaderLayout(d: string)
    ensures ReaderScript(d) == Join(d, "reg_reader/registry_reader.py")
    ensures Basename(ReaderScript(d)) == "registry_reader.py"
  {
    EntryLayout(d, "reg_reader", "registry_reader.py", "reg_reader/registry_reader.py");
  }

  lemma StartLayout(d: string)
    ensures StartScript(d) == Join(d, "start_pl/start_pl.sh") && Basename(StartScript(d)) == "start_pl.sh"
  {
    EntryLayout(d, "start_pl", "start_pl.sh", "start_pl/start_pl.sh");
  }

  lemma DockerfileLayout(d: string)
    ensures DockerfileScript(d) == Join(d, "start_pl/Dockerfile.dev")
    ensures Basename(DockerfileScript(d)) == "Dockerfile.dev"
  {
    EntryLayout(d, "start_pl", "Dockerfile.dev", "start_pl/Dockerfile.dev");
  }

  lemma SwitchLayout(d: string)
    ensures SwitchScript(d) == Join(d, "start_pl/plaso-switch.dev.sh")
    ensures Basename(SwitchScript(d)) == "plaso-switch.dev.sh"
  {
    EntryLayout(d, "start_pl", "plaso-switch.dev.sh", "start_pl/plaso-switch.dev.sh");
  }

  /** A location that is not a directory is refused whatever files exist. */
  lemma ResolveNeedsDirectory(s: FsState, d: string)
    requires !s.IsDir(d)
    ensures Resolution(s, d) == Failure(DirectoryMissing(d))
  {
  }

  /** With the first group incomplete the resolver reports that group, and
      what exists of the second group makes no difference: it is never
      inspected. */
  lemma ResolveReportsTrioFirst(s: FsState, t: FsState, d: string)
    requires s.IsDir(d) && !TrioPresent(s, d)
    requires t.dirs == s.dirs && (TrioPresent(t, d) <==> TrioPresent(s, d))
    ensures Resolution(s, d) == Failure(ParsersMissing)
    ensures Resolution(t, d) == Resolution(s, d)
  {
  }

  /** With the first group complete and the second incomplete the resolver
      reports the second group. */
  lemma ResolveReportsPairSecond(s: FsState, d: string)
    requires s.IsDir(d) && TrioPresent(s, d) && !PairPresent(s, d)
    ensures Resolution(s, d) == Failure(BuilderMissing)
  {
  }

  /** The resolver succeeds exactly when the directory and all five manifest
      files exist, and then returns the five paths, each the directory joined
      with its relative manifest path, in manifest order. */
  lemma ResolveSucceedsIff(s: FsState, d: string)
    ensures Resolution(s, d).Success? <==>
      && s.IsDir(d)
      && s.Exists(Join(d, "plaso_parser/p2.py"))
      && s.Exists(Join(d, "reg_reader/registry_reader.py"))
      && s.Exists(Join(d, "start_pl/start_pl.sh"))
      && s.Exists(Join(d, "start_pl/Dockerfile.dev"))
      && s.Exists(Join(d, "start_pl/plaso-switch.dev.sh"))
    ensures Resolution(s, d).Success? ==>
      Resolution(s, d).value == [
        Join(d, "plaso_parser/p2.py"),
        Join(d, "reg_reader/registry_reader.py"),
        Join(d, "start_pl/start_pl.sh"),
        Join(d, "start_pl/Dockerfile.dev"),
        Join(d, "start_pl/plaso-switch.dev.sh")
      ]
  {
    ParserLayout(d);
    ReaderLayout(d);
    StartLayout(d);
    DockerfileLayout(d);
    SwitchLayout(d);
  }

  /** `scripts_from_dir`: builds the five paths, checks the directory and
      then the two groups, and collects the paths in order. */
  method ScriptsFromDir(fs: FileSystem, dirPath: string := ScriptsBase) returns (r: Result<seq<string>, PadError>)
    ensures r == Resolution(fs.State(), dirPath)
  {
    var plP := Join(Join(dirPath, "plaso_parser"), "p2.py");
    var rRd := Join(Join(dirPath, "reg_reader"), "registry_reader.py");
    var plS := Join(Join(dirPath, "start_pl"), "start_pl.sh");
    var plDf := Join(Join(dirPath, "start_pl"), "Dockerfile.dev");
    var plSw := Join(Join(dirPath, "start_pl"), "plaso-switch.dev.sh");
    var s := fs.State();
    var ret: seq<string> := [];
    if s.IsDir(dirPath) {
      if s.Exists(plP) && s.Exists(rRd) && s.Exists(plS) {
        ret := ret + [plP];
        ret := ret + [rRd];
        ret := ret + [plS];
      } else {
        return Failure(ParsersMissing);
      }
      if s.Exists(plDf) && s.Exists(plSw) {
        ret := ret + [plDf];
        ret := ret + [plSw];
      } else {
        return Failure(BuilderMissing);
      }
      assert ret == [plP, rRd, plS, plDf, plSw];
      return Success(ret);
    } else {
      return Failure(DirectoryMissing(dirPath));
    }
  }

  // ---------------------------------------------------------------------
  // get_scripts, get_plaso_container, set_executables

  /** The directory `get_scripts` resolves for a scripts location: the clone
      directory for a remote reference, else the location itself. */
  function ScriptsDir(location: string): string {
    if Urls.IsUrl(location) then ScriptsBase else location
  }

  /** `get_scripts`: fetches a remote script collection into its clone
      directory, resolves the five scripts there (or in the local directory)
      and records them, each in its own field. A failed fetch or resolution
      propagates and leaves the five fields as they were. */
  method GetScripts(config: Config, fs: FileSystem, remote: string -> Fetch) returns (r: Outcome<PadError>)
    requires config.Valid()
    modifies config, fs
    ensures config.Valid()
    ensures config.plasoPath == old(config.plasoPath) && config.scripts == old(config.scripts)
    ensures config.workDir == old(config.workDir)
    ensures
      var loc := config.scripts.path;
      var d := ScriptsDir(loc);
      if Urls.IsUrl(loc) && remote(loc).FetchError? then
        && r == Fail(FetchFailed(ScriptsBase))
        && fs.State() == old(fs.State())
        && config.plasoParser == old(config.plasoParser) && config.regReader == old(config.regReader)
        && config.plasoStart == old(config.plasoStart) && config.switch == old(config.switch)
        && config.dockerfile == old(config.dockerfile)
      else
        && fs.State() == (if Urls.IsUrl(loc) then Merged(old(fs.State()), ScriptsBase, remote(loc).tree)
                          else old(fs.State()))
        && match Resolution(fs.State(), d)
           case Failure(e) =>
             && r == Fail(e)
             && config.plasoParser == old(config.plasoParser) && config.regReader == old(config.regReader)
             && config.plasoStart == old(config.plasoStart) && config.switch == old(config.switch)
             && config.dockerfile == old(config.dockerfile)
           case Success(paths) =>
             && r == Pass
             && config.plasoParser == Some(ParserScript(d))
             && config.regReader == Some(ReaderScript(d))
             && config.plasoStart == Some(StartScript(d))
             && config.dockerfile == Some(DockerfileScript(d))
             && config.switch == Some(SwitchScript(d))
  {
    var savedPath: string;
    if config.scripts.IsUrl() {
      var loc := config.scripts.ToString();
      var ok := fs.Clone(remote(loc), config.scripts.basePath.value);
      if !ok {
        return Fail(FetchFailed(ScriptsBase));
      }
      savedPath := config.scripts.basePath.value;
    } else {
      savedPath := config.scripts.ToString();
    }
    Urls.IsUrlIff(config.scripts.path);
    var f := ScriptsFromDir(fs, savedPath);
    if f.Failure? {
      return Fail(f.error);
    }
    var paths := f.value;
    var plP, rRd, plS, dfP, swP := paths[0], paths[1], paths[2], paths[3], paths[4];
    config.SetParsersPath(plP := plP, plS := plS, rRd := rRd, swP := swP, dfP := dfP);
    return Pass;
  }

  /** `plaso_form_tgz`: extraction of a packaged toolkit is not implemented;
      it yields the empty path. */
  function PlasoFromTgz(plasoPath: string := PlasoBase): (r: string)
    ensures r == ""
  {
    ""
  }

  /** `get_plaso_container`: a remote toolkit is fetched into its clone
      directory, which becomes the toolkit location; a local one is replaced
      by what the archive step yields, the empty path. A failed fetch
      propagates and changes nothing. The scripts and the work directory are
      never touched. */
  method GetPlasoContainer(config: Config, fs: FileSystem, remote: string -> Fetch) returns (r: Outcome<PadError>)
    requires config.Valid()
    modifies config, fs
    ensures config.Valid()
    ensures config.scripts == old(config.scripts) && config.workDir == old(config.workDir)
    ensures config.plasoParser == old(config.plasoParser) && config.regReader == old(config.regReader)
    ensures config.plasoStart == old(config.plasoStart) && config.switch == old(config.switch)
    ensures config.dockerfile == old(config.dockerfile)
    ensures
      var loc := old(config.plasoPath.path);
      if Urls.IsUrl(loc) && remote(loc).FetchError? then
        r == Fail(FetchFailed(PlasoBase)) && config.plasoPath == old(config.plasoPath) &&
        fs.State() == old(fs.State())
      else
        && r == Pass
        && fresh(config.plasoPath)
        && config.plasoPath.path == (if Urls.IsUrl(loc) then PlasoBase else "")
        && fs.State() == (if Urls.IsUrl(loc) then Merged(old(fs.State()), PlasoBase, remote(loc).tree)
                          else old(fs.State()))
  {
    var savedPath: string;
    var loc := config.plasoPath.ToString();
    if config.plasoPath.IsUrl() {
      var ok := fs.Clone(remote(loc), config.plasoPath.basePath.value);
      if !ok {
        return Fail(FetchFailed(PlasoBase));
      }
      savedPath := config.plasoPath.basePath.value;
    } else {
      savedPath := PlasoFromTgz(loc);
    }
    Urls.IsUrlIff(loc);
    config.SetPlasoPath(savedPath);
    return Pass;
  }

  /** The five sources `set_executables` copies, in its order. */
  ghost function StagingSources(c: Config): seq<Option<string>>
    reads c
  {
    [c.plasoParser, c.regReader, c.plasoStart, c.switch, c.dockerfile]
  }

  /** One more successful copy carries the staging run forward. */
  lemma StageOneMore(s0: FsState, s: FsState, srcs: seq<Option<string>>, k: nat, dst: string)
    requires k < |srcs| && StageAll(s0, srcs, dst) == StageAll(s, srcs[k..], dst)
    requires CopyStep(s, srcs[k], dst).Success?
    ensures StageAll(s0, srcs, dst) == StageAll(CopyStep(s, srcs[k], dst).value, srcs[k + 1..], dst)
  {
    assert srcs[k..][0] == srcs[k] && srcs[k..][1..] == srcs[k + 1..];
  }

  /** `set_executables`: five copies into the work directory, in order; the
      first that raises ends the step and the earlier copies stay. */
  method SetExecutables(config: Config, fs: FileSystem) returns (r: Outcome<CopyError>)
    modifies fs
    ensures StageAll(old(fs.State()), StagingSources(config), config.workDir) == StageResult(fs.State(), r)
  {
    ghost var srcs := StagingSources(config);
    ghost var s0 := fs.State();
    r := fs.Copy(config.plasoParser, config.workDir);
    if r.Fail? {
      return;
    }
    StageOneMore(s0, old(fs.State()), srcs, 0, config.workDir);
    ghost var s1 := fs.State();
    r := fs.Copy(config.regReader, config.workDir);
    if r.Fail? {
      return;
    }
    StageOneMore(s0, s1, srcs, 1, config.workDir);
    ghost var s2 := fs.State();
    r := fs.Copy(config.plasoStart, config.workDir);
    if r.Fail? {
      return;
    }
    StageOneMore(s0, s2, srcs, 2, config.workDir);
    ghost var s3 := fs.State();
    r := fs.Copy(config.switch, config.workDir);
    if r.Fail? {
      return;
    }
    StageOneMore(s0, s3, srcs, 3, config.workDir);
    ghost var s4 := fs.State();
    r := fs.Copy(config.dockerfile, config.workDir);
    if r.Fail? {
      return;
    }
    StageOneMore(s0, s4, srcs, 4, config.workDir);
    return Pass;
  }

  // ---------------------------------------------------------------------
  // Staging a resolved script set

  /** The resolved scripts in the order `set_executables` copies them, given
      how `get_scripts` maps the resolver's result onto the fields. */
  function StagingOrder(d: string): seq<string> {
    [ParserScript(d), ReaderScript(d), StartScript(d), SwitchScript(d), DockerfileScript(d)]
  }

  /** Where those five land in the work directory. */
  function StagedScripts(wd: string): seq<string> {
    [Join(wd, "p2.py"), Join(wd, "registry_reader.py"), Join(wd, "start_pl.sh"),
     Join(wd, "plaso-switch.dev.sh"), Join(wd, "Dockerfile.dev")]
  }

  /** Five sources whose base names are known land under those names. */
  lemma FiveTargets(wd: string, a: string, b: string, c: string, e: string, f: string,
                    na: string, nb: string, nc: string, ne: string, nf: string)
    requires Basename(a) == na && Basename(b) == nb && Basename(c) == nc
    requires Basename(e) == ne && Basename(f) == nf
    ensures Targets(wd, [a, b, c, e, f]) == [Join(wd, na), Join(wd, nb), Join(wd, nc), Join(wd, ne), Join(wd, nf)]
  {
    var ts := Targets(wd, [a, b, c, e, f]);
    assert ts[0] == StagedPath(wd, a) && ts[1] == StagedPath(wd, b) && ts[2] == StagedPath(wd, c);
    assert ts[3] == StagedPath(wd, e) && ts[4] == StagedPath(wd, f);
  }

  /** `shutil.copy` into the work directory writes each resolved script under
      its manifest name. */
  lemma StagedTargets(d: string, wd: string)
    ensures Targets(wd, StagingOrder(d)) == StagedScripts(wd)
  {
    ParserLayout(d);
    ReaderLayout(d);
    StartLayout(d);
    SwitchLayout(d);
    DockerfileLayout(d);
    FiveTargets(wd, ParserScript(d), ReaderScript(d), StartScript(d), SwitchScript(d), DockerfileScript(d),
                "p2.py", "registry_reader.py", "start_pl.sh", "plaso-switch.dev.sh", "Dockerfile.dev");
  }

  /** The names the five scripts are staged under. */
  const StagedNames: seq<string> :=
    ["p2.py", "registry_reader.py", "start_pl.sh", "plaso-switch.dev.sh", "Dockerfile.dev"]

  /** They have no separator and are pairwise different. */
  lemma StagedNamesPlain()
    ensures |StagedNames| == 5
    ensures forall i | 0 <= i < 5 :: PlainName(StagedNames[i])
    ensures forall i, j | 0 <= i < j < 5 :: StagedNames[i] != StagedNames[j]
  {
    assert forall i, j | 0 <= i < j < 5 :: |StagedNames[i]| != |StagedNames[j]|;
  }

  /** The five staged files have five different paths: their names differ. */
  lemma StagedScriptsDistinct(wd: string)
    ensures forall i, j | 0 <= i < j < 5 :: StagedScripts(wd)[i] != StagedScripts(wd)[j]
  {
    var names := StagedNames;
    StagedNamesPlain();
    var ss := StagedScripts(wd);
    assert forall i | 0 <= i < 5 :: ss[i] == Join(wd, names[i]);
    forall i, j | 0 <= i < j < 5 ensures ss[i] != ss[j] {
      JoinNamesDistinct(wd, names[i], names[j]);
    }
  }

  /** Staging a resolved script set into a work directory completes when the
      five scripts are files and none of the five targets is a directory or
      one of the scripts; each target then holds its script's contents and
      nothing else changes. */
  lemma StageResolvedScripts(s: FsState, d: string, wd: string)
    requires s.IsDir(wd)
    requires forall k | 0 <= k < 5 :: StagingOrder(d)[k] in s.files
    requires forall k | 0 <= k < 5 ::
      StagedScripts(wd)[k] !in s.dirs && StagedScripts(wd)[k] !in StagingOrder(d)
    ensures var r := StageAll(s, Lift(StagingOrder(d)), wd);
      && r.outcome == Pass
      && r.state.dirs == s.dirs
      && (forall k | 0 <= k < 5 ::
            StagedScripts(wd)[k] in r.state.files &&
            r.state.files[StagedScripts(wd)[k]] == s.files[StagingOrder(d)[k]])
      && (forall p | p !in StagedScripts(wd) ::
            (p in r.state.files <==> p in s.files) &&
            (p in s.files ==> r.state.files[p] == s.files[p]))
  {
    StagedTargets(d, wd);
    StagedScriptsDistinct(wd);
    assert CleanStaging(s, wd, StagingOrder(d));
    StageAllSucceeds(s, wd, StagingOrder(d));
  }

  // ---------------------------------------------------------------------
  // main

  /** The filesystem after the pipeline and how it ended. */
  datatype RunResult = RunResult(state: FsState, outcome: Outcome<PadError>)

  /** The filesystem once a location has been acquired into `dest`: a remote
      reference is fetched, a local location changes nothing; `None` when the
      fetch fails. */
  ghost function Acquired(s: FsState, loc: string, dest: string, remote: string -> Fetch): Option<FsState> {
    if !Urls.IsUrl(loc) then Some(s)
    else if remote(loc).FetchError? then None
    else Some(Merged(s, dest, remote(loc).tree))
  }

  /** What `main` does up to the image build, on values: select the
      locations, acquire and resolve the scripts, acquire the toolkit, stage
      the five scripts into the work directory. Each step that raises ends the
      run and keeps what the earlier steps wrote. */
  ghost function Pipeline(ini: map<string, map<string, string>>, s: FsState, remote: string -> Fetch): RunResult {
    match SelectSources(ini)
    case Failure(e) => RunResult(s, Fail(e))
    case Success(src) => FromSources(src, s, remote)
  }

  /** The run once the locations are selected. */
  ghost function FromSources(src: Sources, s: FsState, remote: string -> Fetch): RunResult {
    match Acquired(s, src.scripts, ScriptsBase, remote)
    case None => RunResult(s, Fail(FetchFailed(ScriptsBase)))
    case Some(s1) => FromScripts(src, ScriptsDir(src.scripts), s1, remote)
  }

  /** The run once the script collection is in directory `d`. */
  ghost function FromScripts(src: Sources, d: string, s1: FsState, remote: string -> Fetch): RunResult {
    match Resolution(s1, d)
    case Failure(e) => RunResult(s1, Fail(e))
    case Success(_) =>
      match Acquired(s1, src.plasoDocker, PlasoBase, remote)
      case None => RunResult(s1, Fail(FetchFailed(PlasoBase)))
      case Some(s2) => Staged(d, s2)
  }

  /** The run once the toolkit is in place: the staging copies. */
  ghost function Staged(d: string, s2: FsState): RunResult {
    var st := StageAll(s2, Lift(StagingOrder(d)), DefaultWorkDir);
    RunResult(st.state, if st.outcome.Pass? then Pass else Fail(StageFailed(st.outcome.error)))
  }

  /** The five fields `get_scripts` fills, once filled from directory `d`,
      are the staging sources in `set_executables`' order. */
  lemma FilledSources(c: Config, d: string)
    requires c.plasoParser == Some(ParserScript(d)) && c.regReader == Some(ReaderScript(d))
    requires c.plasoStart == Some(StartScript(d)) && c.switch == Some(SwitchScript(d))
    requires c.dockerfile == Some(DockerfileScript(d))
    ensures StagingSources(c) == Lift(StagingOrder(d))
  {
    LiftFive(ParserScript(d), ReaderScript(d), StartScript(d), SwitchScript(d), DockerfileScript(d));
  }

  lemma LiftFive(a: string, b: string, c: string, e: string, f: string)
    ensures Lift([a, b, c, e, f]) == [Some(a), Some(b), Some(c), Some(e), Some(f)]
  {
    var l := Lift([a, b, c, e, f]);
    assert l[0] == Some(a) && l[1] == Some(b) && l[2] == Some(c) && l[3] == Some(e) && l[4] == Some(f);
  }

  /** `main`: `check_config`, `get_scripts`, `get_plaso_container` and
      `set_executables` in turn; the first that raises ends the run. */
  method Run(ini: map<string, map<string, string>>, fs: FileSystem, remote: string -> Fetch) returns (r: Outcome<PadError>)
    modifies fs
    ensures RunResult(fs.State(), r) == Pipeline(ini, old(fs.State()), remote)
  {
    ghost var s0 := fs.State();
    var c := CheckConfig(ini);
    if c.Failure? {
      return Fail(c.error);
    }
    var config := c.value;
    ghost var src := SelectSources(ini).value;
    ghost var d := ScriptsDir(src.scripts);
    assert Pipeline(ini, s0, remote) == FromSources(src, s0, remote);
    var g := GetScripts(config, fs, remote);
    if g.Fail? {
      return g;
    }
    ghost var s1 := fs.State();
    assert FromSources(src, s0, remote) == FromScripts(src, d, s1, remote);
    assert Resolution(s1, d).Success?;
    var p := GetPlasoContainer(config, fs, remote);
    if p.Fail? {
      return p;
    }
    assert FromScripts(src, d, s1, remote) == Staged(d, fs.State());
    r := StageResolved(config, fs, d);
  }

  /** The last step of `main` modelled here: `set_executables` on a resolved
      script set, its copy error wrapped as the run's error. */
  method StageResolved(config: Config, fs: FileSystem, ghost d: string) returns (r: Outcome<PadError>)
    requires config.plasoParser == Some(ParserScript(d)) && config.regReader == Some(ReaderScript(d))
    requires config.plasoStart == Some(StartScript(d)) && config.switch == Some(SwitchScript(d))
    requires config.dockerfile == Some(DockerfileScript(d)) && config.workDir == DefaultWorkDir
    modifies fs
    ensures RunResult(fs.State(), r) == Staged(d, old(fs.State()))
  {
    FilledSources(config, d);
    var e := SetExecutables(config, fs);
    if e.Fail? {
      return Fail(StageFailed(e.error));
    }
    return Pass;
  }

  /** Without a `[PAD]` section nothing is fetched or copied. */
  lemma PipelineNeedsSection(ini: map<string, map<string, string>>, s: FsState, remote: string -> Fetch)
    requires "PAD" !in ini
    ensures Pipeline(ini, s, remote) == RunResult(s, Fail(ConfigSectionMissing))
  {
  }

  /** A failed fetch of a remote script collection ends the run before
      anything is written. */
  lemma PipelineScriptsFetchFails(ini: map<string, map<string, string>>, s: FsState, remote: string -> Fetch)
    requires SelectSources(ini).Success?
    requires var loc := SelectSources(ini).value.scripts; Urls.IsUrl(loc) && remote(loc).FetchError?
    ensures Pipeline(ini, s, remote) == RunResult(s, Fail(FetchFailed(ScriptsBase)))
  {
  }

  /** A resolution that fails after a successful fetch ends the run with the
      resolver's own error and keeps the fetched collection: there is no
      rollback, and nothing is copied. */
  lemma PipelineKeepsFetchedScripts(ini: map<string, map<string, string>>, s: FsState, remote: string -> Fetch)
    requires SelectSources(ini).Success?
    requires var loc := SelectSources(ini).value.scripts; Urls.IsUrl(loc) && remote(loc).Fetched?
    requires var loc := SelectSources(ini).value.scripts;
      Resolution(Merged(s, ScriptsBase, remote(loc).tree), ScriptsBase).Failure?
    ensures var m := Merged(s, ScriptsBase, remote(SelectSources(ini).value.scripts).tree);
      Pipeline(ini, s, remote) == RunResult(m, Fail(Resolution(m, ScriptsBase).error))
  {
  }

  /** A local script collection that does not resolve ends the run with the
      resolver's error, before anything is fetched or copied. */
  lemma PipelineLocalScriptsUnresolved(ini: map<string, map<string, string>>, s: FsState, remote: string -> Fetch)
    requires SelectSources(ini).Success?
    requires var d := SelectSources(ini).value.scripts; !Urls.IsUrl(d) && Resolution(s, d).Failure?
    ensures var d := SelectSources(ini).value.scripts;
      Pipeline(ini, s, remote) == RunResult(s, Fail(Resolution(s, d).error))
  {
  }

  /** A local scripts directory without the registry reader ends the run with
      the parser/reader/start group's error, and nothing changes. */
  lemma PipelineMissingReader(ini: map<string, map<string, string>>, s: FsState, remote: string -> Fetch)
    requires SelectSources(ini).Success?
    requires var d := SelectSources(ini).value.scripts;
      !Urls.IsUrl(d) && s.IsDir(d) && !s.Exists(ReaderScript(d))
    ensures Pipeline(ini, s, remote) == RunResult(s, Fail(ParsersMissing))
  {
    PipelineLocalScriptsUnresolved(ini, s, remote);
  }

  /** Staging into a work directory that does not exist stops at the first
      copy, with nothing written. */
  lemma StagedNeedsWorkDir(d: string, s2: FsState)
    requires !s2.IsDir(DefaultWorkDir)
    ensures Staged(d, s2).state == s2
    ensures Staged(d, s2).outcome.Fail?
  {
    assert EndsWithSep(DefaultWorkDir);
    assert |Lift(StagingOrder(d))| == 5;
    StageNeedsDirectory(s2, Lift(StagingOrder(d)), DefaultWorkDir);
  }

  /** With both locations local and no work directory, the run fails and
      leaves the filesystem as it found it. */
  lemma PipelineNeedsWorkDir(ini: map<string, map<string, string>>, s: FsState, remote: string -> Fetch)
    requires SelectSources(ini).Success? ==>
      !Urls.IsUrl(SelectSources(ini).value.scripts) && !Urls.IsUrl(SelectSources(ini).value.plasoDocker)
    requires !s.IsDir(DefaultWorkDir)
    ensures Pipeline(ini, s, remote).state == s
    ensures Pipeline(ini, s, remote).outcome.Fail?
  {
    match SelectSources(ini)
    case Failure(_) =>
    case Success(src) =>
      var d := ScriptsDir(src.scripts);
      if Resolution(s, d).Success? {
        StagedNeedsWorkDir(d, s);
      }
  }

  /** With both locations local, the scripts present as files in the scripts
      directory and the work directory in place (none of the five targets a
      directory or one of the scripts), the run completes: each script is
      copied into the work directory under its own name and nothing else
      changes. */
  lemma PipelineStagesLocalScripts(ini: map<string, map<string, string>>, s: FsState, remote: string -> Fetch)
    requires SelectSources(ini).Success?
    requires var src := SelectSources(ini).value; !Urls.IsUrl(src.scripts) && !Urls.IsUrl(src.plasoDocker)
    requires var d := SelectSources(ini).value.scripts;
      && s.IsDir(d) && s.IsDir(DefaultWorkDir)
      && (forall k | 0 <= k < 5 :: StagingOrder(d)[k] in s.files)
      && (forall k | 0 <= k < 5 ::
            StagedScripts(DefaultWorkDir)[k] !in s.dirs && StagedScripts(DefaultWorkDir)[k] !in StagingOrder(d))
    ensures var d := SelectSources(ini).value.scripts; var r := Pipeline(ini, s, remote);
      && r.outcome == Pass
      && r.state.dirs == s.dirs
      && (forall k | 0 <= k < 5 ::
            StagedScripts(DefaultWorkDir)[k] in r.state.files &&
            r.state.files[StagedScripts(DefaultWorkDir)[k]] == s.files[StagingOrder(d)[k]])
      && (forall p | p !in StagedScripts(DefaultWorkDir) ::
            (p in r.state.files <==> p in s.files) &&
            (p in s.files ==> r.state.files[p] == s.files[p]))
  {
    var d := SelectSources(ini).value.scripts;
    assert TrioPresent(s, d) && PairPresent(s, d) by {
      var ss := StagingOrder(d);
      assert ss[0] in s.files && ss[1] in s.files && ss[2] in s.files;
      assert ss[3] in s.files && ss[4] in s.files;
    }
    StageResolvedScripts(s, d, DefaultWorkDir);
  }
}
