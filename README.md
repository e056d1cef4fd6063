# pad.py: acquisition and staging pipeline, modelled in Dafny

`pad.py` prepares a docker build context for the plaso toolkit in four steps:

1. It reads the `[PAD]` section of a settings file and picks two locations: the toolkit (`plaso_docker`) and a script collection (`parsers_link` when that key is non-empty, else `parsers`).
2. It acquires the script collection. A remote reference is cloned into `single-file-utils/`; a local location is used as it is. It then resolves five fixed scripts inside that directory: a parser, a registry reader, a start script, a Dockerfile and a switch script.
3. It acquires the toolkit. A remote reference is cloned into `plaso/`; a local one goes to an archive step that is still a stub.
4. It copies the five scripts into the work directory `plaso/config/docker/` with `shutil.copy`.

The last step, the image build, is not modelled.

The model has five modules:

- `Wrappers` (`wrappers.dfy`): `Option`, `Result` and `Outcome`.
- `Paths` (`paths.dfy`): POSIX `os.path.join` and `os.path.basename` on strings, with their algebra. Join can be regrouped. The basename of a join is the basename of its right part. Two distinct plain names joined to one directory give two distinct paths.
- `Urls` (`urls.dfy`): the part of `urllib.parse.urlparse` that `ToolPath.is_url` observes. This is the scheme (section 3.1 of RFC 3986), the network location (the authority of section 3.2 of RFC 3986), and the `ValueError` raised for an unmatched IPv6 bracket. `IsUrl`, the predicate `is_url` computes through the parser `UrlSplit`, is proved equivalent to `IsRemote`, an independent position-based description, and `UrlSplit` itself is characterised on remote references by the positions that describe them.
- `Files` (`files.dfy`): the filesystem.
  - `FsState` is a value: a map from file path to contents, plus a set of directories. `WellFormed` says no path is both, and copies preserve it.
  - `FileSystem` is a class whose `Copy` method (`shutil.copy`) and `Clone` method (`git.Repo.clone_from`) change it in place.
  - `CopyStep` and `StageAll` are the value-level specifications of those methods. Lemmas about staging sequences cover no rollback, success conditions and frame.
- `Pad` (`pad.dfy`): the program itself.
  - `ToolPath` has three constructors: the base class and the `PlasoPath`/`ScriptsPath` subclasses.
  - `Config` and its record updates.
  - `check_config`'s selection rule, `SelectSources`.
  - The resolver: the method `ScriptsFromDir` and its specification `Resolution`.
  - `GetScripts`, `GetPlasoContainer`, `SetExecutables` and `main` (`Run`). `Run` is proved against the value-level `Pipeline`, and end-to-end lemmas are stated about `Pipeline`.

Nothing external is called. Each external input becomes a parameter:
- The settings file becomes the parsed map `ini`, from section to key to value.
- The filesystem is a `FileSystem` object.
- The result of cloning a reference is the function parameter `remote: string -> Fetch`.
- `os.path.abspath` is the function parameter `absPath`.

`PlasoPath` and `ScriptsPath` override `ToolPath.__post_init__` without calling it (pad.py:75-76, 83-84). So the locations the pipeline uses are never made absolute, even though the base class (pad.py:53-55) makes an existing path absolute. The model follows the code: `ToolPath.Plaso` and `ToolPath.Scripts` keep the path as given.

## Model

| member | source | states |
|---|---|---|
| Paths.Join | pad.py:127-131 | definition of POSIX `os.path.join` for two parts: an absolute right part wins, else one '/' is put between them when the left part is non-empty and does not end in '/'; its properties are the `Join…` and `BasenameOfJoin` lemmas |
| Paths.Basename | pad.py:188-192 | the name `shutil.copy` gives a file copied into a directory is a suffix of the source path and contains no '/' |
| Paths.BasenameUnique | pad.py:188-192 | the basename is the only '/'-free suffix that starts the path or follows a '/' |
| Paths.BasenameFollowsSep | pad.py:188-192 | unless the basename is the whole path, the character before it is '/' |
| Paths.BasenameOfName | pad.py:188-192 | a plain name is its own basename |
| Paths.BasenameAfterSep | pad.py:188-192 | a prefix that ends in '/' does not change the basename |
| Paths.BasenameOfJoin | pad.py:127-131 | the basename of `join(a, b)` is the basename of `b` |
| Paths.JoinAssociative | pad.py:127-131 | `join(join(a, b), c) == join(a, join(b, c))`: the three-part join equals the directory joined with the relative path `b/c` |
| Paths.JoinNamesDistinct | pad.py:188-192 | one directory joined with two different plain names gives two different paths |
| Urls.UrlSplit | pad.py:59 | definition of the scheme/netloc/rest split `urlparse` performs, failing on an unmatched bracket; characterised by `SplitOfRemote`, `SplitValidScheme` and `ComposedUrl` |
| Urls.IsUrl | pad.py:57-62 | definition of `is_url`: the split succeeds with scheme and netloc both non-empty; proved equal to `IsRemote` by `IsUrlIff` |
| Urls.FindColon | pad.py:59 | the result is the index of the first ':', or the length when there is none |
| Urls.FindDelim | pad.py:59 | the result is the index of the first '/', '?' or '#', or the length when there is none |
| Urls.UrlIsRemote | pad.py:57-62 | if `is_url` holds, the string is a valid scheme, "://", a non-empty bracket-balanced authority, then the end of the string or a delimiter |
| Urls.RemoteIsUrl | pad.py:57-62 | every string of that form passes `is_url` |
| Urls.IsUrlIff | pad.py:57-62 | `is_url` holds exactly for remote references; an unmatched bracket (`ValueError`) makes it false |
| Urls.SplitOfRemote | pad.py:59-60 | a remote reference splits into its lower-cased scheme, its authority and the rest at the positions that describe it |
| Urls.SplitValidScheme | pad.py:59 | a valid scheme followed by ':' is split off and lower-cased, and the text after the ':' is kept |
| Urls.ComposedUrl | pad.py:57-62 | composing scheme, "://", host and path and then splitting gives back the lower-cased scheme, the host and the path (round trip), and the result is a URL |
| Urls.DefaultToolkitIsUrl | pad.py:88 | the default toolkit location `https://github.com/log2timeline/plaso.git` is a remote reference |
| Urls.NoColonIsLocal | pad.py:57-62 | a string without ':' is never a URL |
| Urls.DriveLetterIsLocal | pad.py:57-62 | a drive-letter path such as `C:\x` has a scheme but no authority, so it is not a URL |
| Files.FileSystem.Copy | pad.py:188-192 | `shutil.copy` copies into `dst/basename(src)` when `dst` is a directory, else onto `dst`. Errors, checked in this order: unset source, same file, missing source, directory source, directory target, a `dst` that is empty or ends in '/' but is no directory (`FileNotFoundError`). On an error nothing changes |
| Files.FileSystem.Clone | pad.py:157 | a successful fetch makes `dest` a directory and writes each path of the fetched tree under `dest` (`Merged`); a failed fetch changes nothing |
| Files.Merged | pad.py:157 | definition of the state after a clone: `dest` becomes a directory and the fetched tree, whose paths are relative, is placed under `dest/`; its properties are `MergedFrame` |
| Files.MergedFrame | pad.py:157 | after a clone `dest` is a directory, every fetched file and directory sits under `dest/` with its contents, and every path outside `dest` keeps its contents and kind |
| Files.CopyStep | pad.py:188-192 | definition of one `shutil.copy` on a state value, with the error order of `copyfile`; `FileSystem.Copy` is proved against it and the staging lemmas are stated on it |
| Files.CopyKeepsWellFormed | pad.py:188-192 | a successful copy into a well-formed filesystem leaves it well-formed: the target is neither a directory nor the empty path |
| Files.StageAll | pad.py:187-193 | definition of a copy sequence into one directory that stops at the first error; its properties are the `Stage…` lemmas |
| Files.StageKeepsWellFormed | pad.py:187-193 | a copy sequence, completed or stopped, keeps a well-formed filesystem well-formed |
| Files.StageNeedsDirectory | pad.py:187-193 | copying into a `dst` that ends in '/' but is not a directory fails at the first copy and writes nothing |
| Files.StageKeepsDirs | pad.py:187-193 | no copy sequence creates or removes a directory |
| Files.StageConcat | pad.py:187-193 | staging `a + b` is staging `a`, then, if that completed, staging `b` on the result |
| Files.StageStopsAt | pad.py:187-193 | when copy `k` raises, the run ends with that error, and the state is the one the first `k` copies left (no rollback) |
| Files.MissingSourceFails | pad.py:188-192 | a source that does not exist when its turn comes fails with `FileNotFoundError` |
| Files.StageAllSucceeds | pad.py:187-193 | staging completes if: the destination is a directory, every source is a file, and the targets are distinct, are not directories and are not sources. Each target then holds its source's contents, every other path is unchanged, and the directories are unchanged |
| Pad.ToolPath.constructor | pad.py:48-55 | the path is made absolute only when it exists; `base_path` is stored as given and defaults to `None` |
| Pad.ToolPath.Plaso | pad.py:71-76 | `PlasoPath` keeps its path as given and fixes `base_path` to `plaso/` |
| Pad.ToolPath.Scripts | pad.py:79-84 | `ScriptsPath` keeps its path as given and fixes `base_path` to `single-file-utils/` |
| Pad.ToolPath.IsUrl | pad.py:57-62 | the location is a URL exactly when it is a remote reference (scheme and netloc both non-empty) |
| Pad.ToolPath.IsPath | pad.py:64-65 | the location exists, as a file or as a directory |
| Pad.ToolPath.ToString | pad.py:67-68 | the stored location is returned unchanged |
| Pad.Config.constructor | pad.py:86-106 | defaults: the toolkit URL, `single-file-utils`, work dir `plaso/config/docker/`, the five script fields unset. The two locations are wrapped into new `PlasoPath`/`ScriptsPath` objects |
| Pad.Config.SetParsersPath | pad.py:97-102 | each argument goes to its own field, and the locations and the work dir stay the same |
| Pad.Config.SetPlasoPath | pad.py:108-109 | a new `PlasoPath` for the given path replaces the old one, and every other field stays the same |
| Pad.SelectSources | pad.py:116-123 | no `[PAD]` section raises. The toolkit location is `plaso_docker` or its default. A non-empty `parsers_link` decides the scripts location; otherwise it is `parsers` or `./single-file-utils/` |
| Pad.OverrideIgnoresParsers | pad.py:117-123 | when `parsers_link` is non-empty, changing `parsers` does not change the selection |
| Pad.CheckConfig | pad.py:112-123 | fails exactly when the selection fails, with the same error; otherwise returns a fresh valid `Config` holding the selected locations and the defaults |
| Pad.EntryLayout | pad.py:127-131 | `join(d, dir, name)` is `d` joined with `dir/name`, and its basename is `name` |
| Pad.ParserLayout | pad.py:127 | the parser is `join(d, "plaso_parser/p2.py")`, named `p2.py` |
| Pad.ReaderLayout | pad.py:128 | the reader is `join(d, "reg_reader/registry_reader.py")`, named `registry_reader.py` |
| Pad.StartLayout | pad.py:129 | the start script is `join(d, "start_pl/start_pl.sh")`, named `start_pl.sh` |
| Pad.DockerfileLayout | pad.py:130 | the Dockerfile is `join(d, "start_pl/Dockerfile.dev")`, named `Dockerfile.dev` |
| Pad.SwitchLayout | pad.py:131 | the switch script is `join(d, "start_pl/plaso-switch.dev.sh")`, named `plaso-switch.dev.sh` |
| Pad.Resolution | pad.py:126-150 | definition of `scripts_from_dir` on a state value: the directory check, then the parser/reader/start group, then the Dockerfile/switch pair; its properties are the `Resolve…` lemmas, and `ScriptsFromDir` is proved against it |
| Pad.ResolveNeedsDirectory | pad.py:135-150 | a location that is not a directory raises `FileExistsError`, whatever files exist |
| Pad.ResolveReportsTrioFirst | pad.py:136-141 | with the parser/reader/start group incomplete, the result is that group's `FileNotFoundError`. Two states that differ only in the Dockerfile/switch pair give the same result: the pair is never inspected |
| Pad.ResolveReportsPairSecond | pad.py:142-146 | with the first group complete and the pair incomplete, the result is the builder `FileNotFoundError` |
| Pad.ResolveSucceedsIff | pad.py:127-148 | resolution succeeds exactly when the directory and all five files exist. It then returns the five `join(d, relative path)` in the order p2.py, registry_reader.py, start_pl.sh, Dockerfile.dev, plaso-switch.dev.sh |
| Pad.ScriptsFromDir | pad.py:126-150 | building the list by successive appends gives exactly the result or error of `Resolution` |
| Pad.ScriptsDir | pad.py:155-160 | the directory the scripts are resolved in: `single-file-utils/` for a remote collection, the location itself for a local one |
| Pad.Acquired | pad.py:156-158 | definition of acquiring a location: a remote reference is fetched and merged under its clone directory (`None` on a failed fetch), a local one changes nothing |
| Pad.GetScripts | pad.py:154-166 | a remote location is fetched into `single-file-utils/` and resolved there; a local one is resolved in place. A failed fetch or resolution propagates and leaves the five fields unchanged. On success each field gets its own path, and the locations and the work dir are unchanged |
| Pad.PlasoFromTgz | pad.py:169-171 | the archive step yields the empty path |
| Pad.GetPlasoContainer | pad.py:174-184 | a remote toolkit is fetched into `plaso/`, which becomes the toolkit location. A local one is replaced by the empty path. A failed fetch propagates and changes nothing. The scripts and the work dir are never touched |
| Pad.SetExecutables | pad.py:187-193 | the five copies run in the order parser, reader, start, switch, Dockerfile. The first one that raises ends the step, and the earlier copies stay (`StageAll`) |
| Pad.StagedTargets | pad.py:188-192 | the five resolved scripts land in the work dir as `p2.py`, `registry_reader.py`, `start_pl.sh`, `plaso-switch.dev.sh` and `Dockerfile.dev` |
| Pad.StagedNamesPlain | pad.py:188-192 | the five names the scripts are staged under contain no '/' and are pairwise different |
| Pad.StagedScriptsDistinct | pad.py:188-192 | the five staged paths are pairwise different, so no copy overwrites another |
| Pad.StageResolvedScripts | pad.py:187-193 | if the scripts are files, the work dir is a directory and no target is a directory or a script: staging completes, each target holds its script's contents, and nothing else changes |
| Pad.FilledSources | pad.py:163-192 | the fields `get_scripts` fills are exactly the five resolved scripts, in copy order |
| Pad.Pipeline | pad.py:212-216 | definition of `main` up to the build on values: selection, then `FromSources`; each error ends the run with the state the earlier steps left |
| Pad.FromSources | pad.py:212-216 | definition of the run once the locations are selected: acquire the scripts, then `FromScripts` in `ScriptsDir` |
| Pad.FromScripts | pad.py:212-216 | definition of the run once the scripts are in place: resolve them, acquire the toolkit, then `Staged` |
| Pad.Staged | pad.py:212-216 | definition of the last modelled step: the five copies into `plaso/config/docker/`, a copy error wrapped as the run's error |
| Pad.StageResolved | pad.py:187-193 | `set_executables` on a resolved script set: its final state and outcome are those of `Staged` |
| Pad.Run | pad.py:212-216 | `main` up to the build: its final state and outcome are those of `Pipeline` |
| Pad.PipelineNeedsSection | pad.py:116 | without `[PAD]` the run raises before anything is fetched or copied |
| Pad.PipelineScriptsFetchFails | pad.py:156-157 | a failed clone of a remote script collection ends the run, and the filesystem is unchanged |
| Pad.PipelineKeepsFetchedScripts | pad.py:157-162 | a resolution error after a successful clone ends the run with that very error, the clone stays, and nothing is copied |
| Pad.PipelineLocalScriptsUnresolved | pad.py:159-162 | a local script location that does not resolve ends the run with the resolver's error and the filesystem unchanged |
| Pad.PipelineMissingReader | pad.py:136-141 | a local scripts directory without `reg_reader/registry_reader.py` ends the run with the parser/reader/start group's `FileNotFoundError`, before any copy, and the filesystem unchanged |
| Pad.StagedNeedsWorkDir | pad.py:187-193 | with no work directory the staging step fails at its first copy and writes nothing |
| Pad.PipelineNeedsWorkDir | pad.py:212-215 | with both locations local and no `plaso/config/docker/` directory, the run fails and the filesystem is unchanged |
| Pad.PipelineStagesLocalScripts | pad.py:212-215 | with local locations, the five scripts present, the work dir in place and clean targets, the run completes: each script is copied under its own name into `plaso/config/docker/`, and nothing else changes |

## Left out

- Import-time `pip install`, the re-import and `sys.exit` (pad.py:13-45), and `on_stop` (pad.py:208-209): these are process side effects outside the pipeline.
- `build_plaso_container` (pad.py:196-205) and its call in `main` (pad.py:217): the docker engine and the Dockerfile read are external. `Run` ends after `set_executables`.
- Reading the settings file through `configparser` (pad.py:113-114): `SelectSources` and `CheckConfig` take the parsed map. `ini["PAD"]` stands for the section as `SectionProxy` shows it: keys of a `[DEFAULT]` section count as written under `[PAD]`, and the parser must merge them in before the map is built. Key case folding and interpolation are not modelled.
- `logging` calls, which have no observable effect on the pipeline.
- Files.FileSystem.Clone: the clone is an abstract fetch. Its outcome for each reference is the parameter `remote`, and it is either a tree of paths relative to the clone directory, written under it, or an error that changes nothing. A fetched file replaces an existing file's contents. A fetched path that meets an existing path of the other kind becomes both, so `WellFormed` is not claimed after a clone; a real `clone_from` into a non-empty destination fails instead. Partial clones, an existing non-empty destination and network failure modes are not distinguished. pad.py:157 passes the `ScriptsPath` object itself to `clone_from`; the model passes its path string.
- Pad.ToolPath.constructor: `os.path.abspath` is the uninterpreted parameter `absPath`, so no property of canonicalisation is stated.
- Urls.UrlSplit: this approximates `urlparse`, which is library code:
  - no stripping of leading whitespace or C0 control characters;
  - no removal of tab and newline characters;
  - no NFKC check of the network location;
  - no full IPv6 literal validation (only an unmatched '[' or ']' raises);
  - `params` and `fragment` are not split, because `is_url` does not read them.
- Files.CopyStep: paths are compared as strings, without normalising `.`, `..`, repeated '/' or a trailing '/': a directory must be listed under the exact spelling the program uses (`plaso/config/docker/`, not `plaso/config/docker`). These failure modes are not modelled: a missing parent directory of a target that does not end in '/', permissions, a full disk, and the `copymode` step. `os.path.exists` on a broken symlink is not distinguished. `shutil.copy` with `src=None` raises `TypeError` in the source; the model reports it as `SourceUnset`.
- Pad.PlasoFromTgz: the stub returns the empty path, and the model states only that.
- `steps.py` is not part of this model; it only pip-installs a package and clones a fixed template.
