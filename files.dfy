/** The filesystem the pipeline reads and writes, as a map from file path to
    contents plus a set of directory paths, with the two writing operations
    the pipeline performs on it: `shutil.copy` and a repository clone. */
module Files {
  import opened Wrappers
  import opened Paths

  type Bytes = seq<bv8>

  /** One snapshot of the filesystem. Paths are compared as strings. */
  datatype FsState = FsState(files: map<string, Bytes>, dirs: set<string>) {

    /** `os.path.exists` */
    predicate Exists(p: string) {
      p in files || p in dirs
    }

    /** `os.path.isdir` */
    predicate IsDir(p: string) {
      p in dirs
    }

    /** A state a real filesystem can be in: no path is both a file and a
        directory, and the empty path is neither. */
    predicate WellFormed() {
      files.Keys !! dirs && "" !in dirs && "" !in files
    }
  }

  /** What the remote fetch collaborator delivers for a reference: the tree
      it writes, with paths relative to the clone directory, or a failure. */
  datatype Fetch = Fetched(tree: FsState) | FetchError

  /** The exceptions `shutil.copy` raises. */
  datatype CopyError =
    | SourceUnset                 // TypeError: the source is None
    | SameFile(path: string)      // shutil.SameFileError
    | SourceMissing(path: string) // FileNotFoundError
    | SourceIsDirectory(path: string)
    | TargetIsDirectory(path: string)
    | TargetDirMissing(path: string)  // FileNotFoundError: `dst` is empty or ends in '/' but is no directory

  /** Where `shutil.copy(src, dir)` writes when `dir` is a directory. */
  function StagedPath(dir: string, src: string): string {
    Join(dir, Basename(src))
  }

  function CopyTarget(s: FsState, src: string, dst: string): string {
    if s.IsDir(dst) then StagedPath(dst, src) else dst
  }

  /** `shutil.copy(src, dst)` on one snapshot: into `dst/basename(src)` when
      `dst` is a directory, else onto `dst`; the new file or the error. A
      `dst` that ends in '/' (or is empty) but is not a directory cannot be
      opened for writing, which `copyfile` reports as `FileNotFoundError`. */
  function CopyStep(s: FsState, src: Option<string>, dst: string): Result<FsState, CopyError> {
    match src
    case None => Failure(SourceUnset)
    case Some(p) =>
      var target := CopyTarget(s, p, dst);
      if target == p && s.Exists(p) then Failure(SameFile(p))
      else if p !in s.files then
        if p in s.dirs then Failure(SourceIsDirectory(p)) else Failure(SourceMissing(p))
      else if target in s.dirs then Failure(TargetIsDirectory(target))
      else if !s.IsDir(dst) && (dst == [] || EndsWithSep(dst)) then Failure(TargetDirMissing(dst))
      else Success(FsState(s.files[target := s.files[p]], s.dirs))
  }

  /** The prefix every path written by a clone into `dest` starts with. */
  function Root(dest: string): string {
    if dest == [] || EndsWithSep(dest) then dest else dest + "/"
  }

  /** `p` lies under the directory prefix `root`. */
  predicate Under(root: string, p: string) {
    |root| <= |p| && p[..|root|] == root
  }

  /** Prepending a common prefix keeps paths apart. */
  lemma PrefixCancels(root: string, a: string, b: string)
    requires root + a == root + b
    ensures a == b
  {
    assert a == (root + a)[|root|..];
    assert b == (root + b)[|root|..];
  }

  /** The files of `m`, each moved to `root + path`. */
  function Placed(root: string, m: map<string, Bytes>): map<string, Bytes> {
    assert forall a, b | a in m && b in m && root + a == root + b :: a == b by {
      forall a, b | a in m && b in m && root + a == root + b ensures a == b {
        PrefixCancels(root, a, b);
      }
    }
    map k | k in m :: root + k := m[k]
  }

  /** The filesystem after a clone into `dest` that delivered `tree`: `dest`
      becomes a directory and each path of the tree is written under it. */
  function Merged(s: FsState, dest: string, tree: FsState): FsState {
    var root := Root(dest);
    FsState(s.files + Placed(root, tree.files),
            s.dirs + {dest} + (set k | k in tree.dirs :: root + k))
  }

  /** A clone writes the fetched tree under `dest` and leaves every path
      outside `dest` as it was. */
  lemma MergedFrame(s: FsState, dest: string, tree: FsState)
    ensures var m := Merged(s, dest, tree);
      && dest in m.dirs
      && (forall k | k in tree.files :: Root(dest) + k in m.files && m.files[Root(dest) + k] == tree.files[k])
      && (forall k | k in tree.dirs :: Root(dest) + k in m.dirs)
      && (forall p | !Under(Root(dest), p) ::
            (p in m.files <==> p in s.files) && (p in s.files ==> m.files[p] == s.files[p]))
      && (forall p | !Under(Root(dest), p) && p != dest :: p in m.dirs <==> p in s.dirs)
  {
    var root := Root(dest);
    forall k ensures (root + k)[..|root|] == root {
    }
  }

  /** The state after a sequence of copies into `dst` and how it ended. */
  datatype StageResult = StageResult(state: FsState, outcome: Outcome<CopyError>)

  /** Copies `srcs` into `dst` one after the other; the first failing copy
      stops the sequence and the earlier copies stay in place. */
  function StageAll(s: FsState, srcs: seq<Option<string>>, dst: string): StageResult
    decreases |srcs|
  {
    if srcs == [] then StageResult(s, Pass)
    else
      match CopyStep(s, srcs[0], dst)
      case Failure(e) => StageResult(s, Fail(e))
      case Success(s') => StageAll(s', srcs[1..], dst)
  }

  /** Staging never creates or removes a directory. */
  lemma {:induction false} StageKeepsDirs(s: FsState, srcs: seq<Option<string>>, dst: string)
    ensures StageAll(s, srcs, dst).state.dirs == s.dirs
    decreases |srcs|
  {
    if srcs != [] {
      match CopyStep(s, srcs[0], dst)
      case Failure(_) =>
      case Success(s') => StageKeepsDirs(s', srcs[1..], dst);
    }
  }

  /** Staging `a + b` is staging `a` and, if that completed, staging `b` from
      where `a` left the filesystem. */
  lemma {:induction false} StageConcat(s: FsState, a: seq<Option<string>>, b: seq<Option<string>>, dst: string)
    ensures StageAll(s, a + b, dst) ==
      (var r := StageAll(s, a, dst); if r.outcome.Pass? then StageAll(r.state, b, dst) else r)
    decreases |a|
  {
    if a == [] {
      assert a + b == b;
    } else {
      assert (a + b)[0] == a[0] && (a + b)[1..] == a[1..] + b;
      match CopyStep(s, a[0], dst)
      case Failure(_) =>
      case Success(s') => StageConcat(s', a[1..], b, dst);
    }
  }

  /** When copy `k` fails, staging stops with that error and the filesystem
      keeps exactly what the first `k` copies wrote: no rollback. */
  lemma StageStopsAt(s: FsState, srcs: seq<Option<string>>, dst: string, k: nat)
    requires k < |srcs|
    requires StageAll(s, srcs[..k], dst).outcome == Pass
    requires CopyStep(StageAll(s, srcs[..k], dst).state, srcs[k], dst).Failure?
    ensures StageAll(s, srcs, dst) ==
      StageResult(StageAll(s, srcs[..k], dst).state,
                  Fail(CopyStep(StageAll(s, srcs[..k], dst).state, srcs[k], dst).error))
  {
    assert srcs == srcs[..k] + srcs[k..];
    StageConcat(s, srcs[..k], srcs[k..], dst);
    assert srcs[k..][0] == srcs[k];
  }

  /** A source that does not exist when its turn comes fails with
      `FileNotFoundError`, whatever was copied before it. */
  lemma MissingSourceFails(s: FsState, src: string, dst: string)
    requires !s.Exists(src)
    ensures CopyStep(s, Some(src), dst) == Failure(SourceMissing(src))
  {
  }

  /** Copying into a `dst` that ends in '/' but is not a directory always
      fails, so staging into it stops at the first copy with nothing written. */
  lemma StageNeedsDirectory(s: FsState, srcs: seq<Option<string>>, dst: string)
    requires srcs != [] && !s.IsDir(dst) && EndsWithSep(dst)
    ensures StageAll(s, srcs, dst).state == s
    ensures StageAll(s, srcs, dst).outcome.Fail?
  {
    assert CopyStep(s, srcs[0], dst).Failure?;
  }

  /** A successful copy keeps a well-formed filesystem well-formed. */
  lemma CopyKeepsWellFormed(s: FsState, src: Option<string>, dst: string)
    requires s.WellFormed()
    requires CopyStep(s, src, dst).Success?
    ensures CopyStep(s, src, dst).value.WellFormed()
  {
    var p := src.value;
    var target := CopyTarget(s, p, dst);
    assert target != [] by {
      if s.IsDir(dst) {
        assert dst != [];
      }
    }
  }

  /** So does a whole staging run, whether or not it completes. */
  lemma {:induction false} StageKeepsWellFormed(s: FsState, srcs: seq<Option<string>>, dst: string)
    requires s.WellFormed()
    ensures StageAll(s, srcs, dst).state.WellFormed()
    decreases |srcs|
  {
    if srcs != [] {
      match CopyStep(s, srcs[0], dst)
      case Failure(_) =>
      case Success(s') =>
        CopyKeepsWellFormed(s, srcs[0], dst);
        StageKeepsWellFormed(s', srcs[1..], dst);
    }
  }

  function Lift(srcs: seq<string>): (r: seq<Option<string>>)
    ensures |r| == |srcs| && forall i | 0 <= i < |srcs| :: r[i] == Some(srcs[i])
  {
    seq(|srcs|, i requires 0 <= i < |srcs| => Some(srcs[i]))
  }

  function Targets(dst: string, srcs: seq<string>): (r: seq<string>)
    ensures |r| == |srcs| && forall i | 0 <= i < |srcs| :: r[i] == StagedPath(dst, srcs[i])
  {
    seq(|srcs|, i requires 0 <= i < |srcs| => StagedPath(dst, srcs[i]))
  }

  /** The preconditions under which every copy of a staging run succeeds:
      the destination is a directory, every source is a file, no target is a
      directory or one of the sources, and the targets are pairwise distinct. */
  ghost predicate CleanStaging(s: FsState, dst: string, srcs: seq<string>) {
    var ts := Targets(dst, srcs);
    s.IsDir(dst) &&
    (forall i | 0 <= i < |srcs| :: srcs[i] in s.files && ts[i] !in s.dirs && ts[i] !in srcs) &&
    (forall i, j | 0 <= i < j < |srcs| :: ts[i] != ts[j])
  }

  /** Under those preconditions staging completes; each target holds the
      contents its source had before staging, and every other path is
      untouched. */
  lemma {:induction false} StageAllSucceeds(s: FsState, dst: string, srcs: seq<string>)
    requires CleanStaging(s, dst, srcs)
    ensures var r := StageAll(s, Lift(srcs), dst);
      && r.outcome == Pass
      && r.state.dirs == s.dirs
      && (forall i | 0 <= i < |srcs| ::
            StagedPath(dst, srcs[i]) in r.state.files &&
            r.state.files[StagedPath(dst, srcs[i])] == s.files[srcs[i]])
      && (forall p | p !in Targets(dst, srcs) ::
            (p in r.state.files <==> p in s.files) &&
            (p in s.files ==> r.state.files[p] == s.files[p]))
    decreases |srcs|
  {
    var ls := Lift(srcs);
    if srcs != [] {
      var x := srcs[0];
      var t := StagedPath(dst, x);
      var ts := Targets(dst, srcs);
      assert ts[0] == t && t !in srcs && t !in s.dirs;
      var s' := FsState(s.files[t := s.files[x]], s.dirs);
      assert CopyStep(s, ls[0], dst) == Success(s');
      var rest := srcs[1..];
      assert Lift(rest) == ls[1..];
      assert Targets(dst, rest) == ts[1..];
      assert CleanStaging(s', dst, rest) by {
        forall i | 0 <= i < |rest|
          ensures rest[i] in s'.files && Targets(dst, rest)[i] !in s'.dirs && Targets(dst, rest)[i] !in rest
        {
          assert rest[i] == srcs[i + 1];
          assert Targets(dst, rest)[i] == ts[i + 1];
        }
        forall i, j | 0 <= i < j < |rest|
          ensures Targets(dst, rest)[i] != Targets(dst, rest)[j]
        {
          assert Targets(dst, rest)[i] == ts[i + 1] && Targets(dst, rest)[j] == ts[j + 1];
        }
      }
      StageAllSucceeds(s', dst, rest);
      var r := StageAll(s', ls[1..], dst);
      assert StageAll(s, ls, dst) == r;
      forall i | 0 <= i < |srcs|
        ensures StagedPath(dst, srcs[i]) in r.state.files &&
                r.state.files[StagedPath(dst, srcs[i])] == s.files[srcs[i]]
      {
        if i == 0 {
          assert t !in Targets(dst, rest) by {
            forall j | 0 <= j < |rest| ensures Targets(dst, rest)[j] != t {
              assert Targets(dst, rest)[j] == ts[j + 1];
            }
          }
        } else {
          assert srcs[i] == rest[i - 1];
          assert srcs[i] != t;
        }
      }
      forall p | p !in ts
        ensures (p in r.state.files <==> p in s.files) &&
                (p in s.files ==> r.state.files[p] == s.files[p])
      {
        assert p != t;
        assert p !in Targets(dst, rest) by {
          forall j | 0 <= j < |rest| ensures Targets(dst, rest)[j] != p {
            assert Targets(dst, rest)[j] == ts[j + 1];
          }
        }
      }
    }
  }

  /** The filesystem the pipeline runs against (global state in the source),
      with the two operations that change it. */
  class FileSystem {
    var files: map<string, Bytes>
    var dirs: set<string>

    function State(): FsState
      reads this
    {
      FsState(files, dirs)
    }

    constructor (files: map<string, Bytes>, dirs: set<string>)
      ensures State() == FsState(files, dirs)
    {
      this.files := files;
      this.dirs := dirs;
    }

    /** `shutil.copy(src, dst)`: the state and the outcome are those of
        `CopyStep`. */
    method Copy(src: Option<string>, dst: string) returns (o: Outcome<CopyError>)
      modifies this
      ensures match CopyStep(old(State()), src, dst)
        case Success(s') => o == Pass && State() == s'
        case Failure(e) => o == Fail(e) && State() == old(State())
    {
      if src.None? {
        return Fail(SourceUnset);
      }
      ghost var s := State();
      var p := src.value;
      var target := dst;
      if dst in dirs {
        target := Join(dst, Basename(p));
      }
      assert target == CopyTarget(s, p, dst);
      if target == p && (p in files || p in dirs) {
        assert CopyStep(s, src, dst) == Failure(SameFile(p));
        return Fail(SameFile(p));
      }
      if p !in files {
        if p in dirs {
          assert CopyStep(s, src, dst) == Failure(SourceIsDirectory(p));
          return Fail(SourceIsDirectory(p));
        }
        assert CopyStep(s, src, dst) == Failure(SourceMissing(p));
        return Fail(SourceMissing(p));
      }
      if target in dirs {
        assert CopyStep(s, src, dst) == Failure(TargetIsDirectory(target));
        return Fail(TargetIsDirectory(target));
      }
      if dst !in dirs && (dst == [] || EndsWithSep(dst)) {
        assert CopyStep(s, src, dst) == Failure(TargetDirMissing(dst));
        return Fail(TargetDirMissing(dst));
      }
      assert CopyStep(s, src, dst) == Success(FsState(files[target := files[p]], dirs));
      files := files[target := files[p]];
      o := Pass;
    }

    /** `git.Repo.clone_from(reference, dest)`: a successful fetch makes
        `dest` a directory and writes the fetched tree; a failed one changes
        nothing. */
    method Clone(fetch: Fetch, dest: string) returns (ok: bool)
      modifies this
      ensures ok <==> fetch.Fetched?
      ensures ok ==> State() == Merged(old(State()), dest, fetch.tree)
      ensures !ok ==> State() == old(State())
    {
      match fetch
      case FetchError =>
        ok := false;
      case Fetched(tree) =>
        var root := Root(dest);
        files := files + Placed(root, tree.files);
        dirs := dirs + {dest} + (set k | k in tree.dirs :: root + k);
        ok := true;
    }
  }
}
