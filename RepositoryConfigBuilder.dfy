/**
 * The fluent builder that collects a repository's options, validates the
 * URL and resolves the repository path into a `RepositoryConfig`.
 */
module ConfigBuilder {
  import opened Wrappers
  import opened Paths
  import opened Interfaces
  import opened RepositoryConfigs
  import GitUrl

  /** The builder's seven fields, as a value. */
  datatype BuilderState = BuilderState(
    branch: Option<string>,
    fileSystem: FileSystem?,
    gitUrl: string,
    keepUpToDate: bool,
    processCommandsExecutor: CommandExecutor?,
    targetPath: string,
    worktreePath: Option<string>)

  /** A fresh builder: no URL, the current directory, nothing else set. */
  const Defaults: BuilderState := BuilderState(None, null, "", false, null, ".", None)

  /** One call of a fluent setter, with its argument. */
  datatype BuilderCall =
    | WithTargetPath(targetPath: string)
    | WithDefaultBranch(branch: string)
    | KeepUpToDate
    | WithWorktree(worktreePath: string)
    | WithFileSystem(fileSystem: FileSystem?)
    | WithGitUrl(gitUrl: string)
    | WithProcessCommandExecutor(processCommandsExecutor: CommandExecutor?)

  /** The builder's fields, by name. */
  datatype Field = Branch | FileSystemField | GitUrlField | KeepUpToDateField | ExecutorField | TargetPath | WorktreePath

  /** The one field a setter writes. */
  function Writes(call: BuilderCall): Field {
    match call
    case WithTargetPath(_) => TargetPath
    case WithDefaultBranch(_) => Branch
    case KeepUpToDate => KeepUpToDateField
    case WithWorktree(_) => WorktreePath
    case WithFileSystem(_) => FileSystemField
    case WithGitUrl(_) => GitUrlField
    case WithProcessCommandExecutor(_) => ExecutorField
  }

  /** `s` and `t` agree on every field but `f`. */
  predicate AgreeExcept(s: BuilderState, t: BuilderState, f: Field) {
    && (f == Branch || t.branch == s.branch)
    && (f == FileSystemField || t.fileSystem == s.fileSystem)
    && (f == GitUrlField || t.gitUrl == s.gitUrl)
    && (f == KeepUpToDateField || t.keepUpToDate == s.keepUpToDate)
    && (f == ExecutorField || t.processCommandsExecutor == s.processCommandsExecutor)
    && (f == TargetPath || t.targetPath == s.targetPath)
    && (f == WorktreePath || t.worktreePath == s.worktreePath)
  }

  /** `s` and `t` agree on field `f`. */
  predicate AgreeOn(s: BuilderState, t: BuilderState, f: Field) {
    match f
    case Branch => t.branch == s.branch
    case FileSystemField => t.fileSystem == s.fileSystem
    case GitUrlField => t.gitUrl == s.gitUrl
    case KeepUpToDateField => t.keepUpToDate == s.keepUpToDate
    case ExecutorField => t.processCommandsExecutor == s.processCommandsExecutor
    case TargetPath => t.targetPath == s.targetPath
    case WorktreePath => t.worktreePath == s.worktreePath
  }

  /** `t` holds, in the field `call` writes, the value `call` writes. */
  predicate Written(t: BuilderState, call: BuilderCall) {
    match call
    case WithTargetPath(p) => t.targetPath == p
    case WithDefaultBranch(b) => t.branch == Some(b)
    case KeepUpToDate => t.keepUpToDate
    case WithWorktree(w) => t.worktreePath == Some(w)
    case WithFileSystem(fs) => t.fileSystem == fs
    case WithGitUrl(u) => t.gitUrl == u
    case WithProcessCommandExecutor(e) => t.processCommandsExecutor == e
  }

  /** The effect of one setter on the builder's fields. */
  function Step(s: BuilderState, call: BuilderCall): (t: BuilderState)
    ensures AgreeExcept(s, t, Writes(call))
    ensures Written(t, call)
  {
    match call
    case WithTargetPath(p) => s.(targetPath := p)
    case WithDefaultBranch(b) => s.(branch := Some(b))
    case KeepUpToDate => s.(keepUpToDate := true)
    case WithWorktree(w) => s.(worktreePath := Some(w))
    case WithFileSystem(fs) => s.(fileSystem := fs)
    case WithGitUrl(u) => s.(gitUrl := u)
    case WithProcessCommandExecutor(e) => s.(processCommandsExecutor := e)
  }

  /** The fields after a sequence of setter calls, in order. */
  function Configure(s: BuilderState, calls: seq<BuilderCall>): BuilderState
    decreases |calls|
  {
    if calls == [] then s
    else Step(Configure(s, calls[..|calls| - 1]), calls[|calls| - 1])
  }

  /** The repository path the builder resolves for a target path and a URL. */
  function RepositoryPath(paths: PathOps, targetPath: string, gitUrl: string): string {
    paths.combine(paths.getFullPath(targetPath), GitUrl.ProjectNameFromGitUrl(gitUrl))
  }

  /** `c` is what `Build` makes of the fields `s`, collaborators aside when none was injected. */
  predicate Describes(c: RepositoryConfig, s: BuilderState, paths: PathOps) {
    && c.gitUrl == s.gitUrl
    && c.repositoryPath == RepositoryPath(paths, s.targetPath, s.gitUrl)
    && c.branch == s.branch
    && c.keepUpToDate == s.keepUpToDate
    && c.worktreePath == s.worktreePath
    && (s.fileSystem != null ==> c.fileSystem == s.fileSystem)
    && (s.processCommandsExecutor != null ==> c.processCommandsExecutor == s.processCommandsExecutor)
  }

  class RepositoryConfigBuilder {
    var branch: Option<string>
    var fileSystem: FileSystem?
    var gitUrl: string
    var keepUpToDate: bool
    var processCommandsExecutor: CommandExecutor?
    var targetPath: string
    var worktreePath: Option<string>

    function State(): BuilderState
      reads this
    {
      BuilderState(branch, fileSystem, gitUrl, keepUpToDate, processCommandsExecutor, targetPath, worktreePath)
    }

    constructor ()
      ensures State() == Defaults
    {
      branch := None;
      fileSystem := null;
      gitUrl := "";
      keepUpToDate := false;
      processCommandsExecutor := null;
      targetPath := ".";
      worktreePath := None;
    }

    /**
     * Refuses an empty URL before anything else; otherwise resolves the
     * repository path and supplies a default collaborator for each one
     * that was not injected. The builder itself is left as it was.
     */
    method Build(paths: PathOps, disk: Disk) returns (r: Result<RepositoryConfig, ConfigError>)
      ensures r.Failure? <==> gitUrl == ""
      ensures r.Failure? ==> r.error == NoRepositoryUrl
      ensures r.Success? ==> Describes(r.value, State(), paths)
      ensures r.Success? && fileSystem == null ==>
        fresh(r.value.fileSystem) && r.value.fileSystem.disk == disk && r.value.fileSystem.probes == []
      ensures r.Success? && processCommandsExecutor == null ==>
        fresh(r.value.processCommandsExecutor) && r.value.processCommandsExecutor.calls == []
    {
      if gitUrl == "" {
        return Failure(NoRepositoryUrl);
      }
      var resolvedRepositoryPath := RepositoryPath(paths, targetPath, gitUrl);
      var executor := processCommandsExecutor;
      if executor == null {
        executor := new CommandExecutor();
      }
      var fs := fileSystem;
      if fs == null {
        fs := new FileSystem(disk);
      }
      r := Success(RepositoryConfig(gitUrl, resolvedRepositoryPath, branch, keepUpToDate, executor, fs, worktreePath));
    }

    method WithTargetPath(targetPath: string) returns (r: RepositoryConfigBuilder)
      modifies this
      ensures r == this
      ensures State() == Step(old(State()), BuilderCall.WithTargetPath(targetPath))
    {
      this.targetPath := targetPath;
      r := this;
    }

    method WithDefaultBranch(branch: string) returns (r: RepositoryConfigBuilder)
      modifies this
      ensures r == this
      ensures State() == Step(old(State()), BuilderCall.WithDefaultBranch(branch))
    {
      this.branch := Some(branch);
      r := this;
    }

    method KeepUpToDate() returns (r: RepositoryConfigBuilder)
      modifies this
      ensures r == this
      ensures State() == Step(old(State()), BuilderCall.KeepUpToDate)
    {
      keepUpToDate := true;
      r := this;
    }

    method WithWorktree(worktreePath: string) returns (r: RepositoryConfigBuilder)
      modifies this
      ensures r == this
      ensures State() == Step(old(State()), BuilderCall.WithWorktree(worktreePath))
    {
      this.worktreePath := Some(worktreePath);
      r := this;
    }

    method WithFileSystem(fileSystem: FileSystem?) returns (r: RepositoryConfigBuilder)
      modifies this
      ensures r == this
      ensures State() == Step(old(State()), BuilderCall.WithFileSystem(fileSystem))
    {
      this.fileSystem := fileSystem;
      r := this;
    }

    method WithGitUrl(gitUrl: string) returns (r: RepositoryConfigBuilder)
      modifies this
      ensures r == this
      ensures State() == Step(old(State()), BuilderCall.WithGitUrl(gitUrl))
    {
      this.gitUrl := gitUrl;
      r := this;
    }

    method WithProcessCommandExecutor(processCommandsExecutor: CommandExecutor?) returns (r: RepositoryConfigBuilder)
      modifies this
      ensures r == this
      ensures State() == Step(old(State()), BuilderCall.WithProcessCommandExecutor(processCommandsExecutor))
    {
      this.processCommandsExecutor := processCommandsExecutor;
      r := this;
    }
  }

  /** Running the first call, then the rest, is running them all. */
  lemma {:induction false} ConfigureFirst(s: BuilderState, first: BuilderCall, rest: seq<BuilderCall>)
    ensures Configure(s, [first] + rest) == Configure(Step(s, first), rest)
    decreases |rest|
  {
    if rest != [] {
      var all := [first] + rest;
      assert all[..|all| - 1] == [first] + rest[..|rest| - 1];
      ConfigureFirst(s, first, rest[..|rest| - 1]);
    }
  }

  /** States that differ in one field still differ in at most that field after the same calls. */
  lemma {:induction false} ConfigureKeepsAgreement(s: BuilderState, t: BuilderState, f: Field, calls: seq<BuilderCall>)
    requires AgreeExcept(s, t, f)
    ensures AgreeExcept(Configure(s, calls), Configure(t, calls), f)
    decreases |calls|
  {
    if calls != [] {
      ConfigureKeepsAgreement(s, t, f, calls[..|calls| - 1]);
    }
  }

  /**
   * Last write wins: once a setter is called again, its earlier call, and
   * everything else it wrote, no longer matters.
   */
  lemma LastWriteWins(s: BuilderState, earlier: BuilderCall, between: seq<BuilderCall>, later: BuilderCall)
    requires Writes(earlier) == Writes(later)
    ensures Configure(s, [earlier] + between + [later]) == Configure(s, between + [later])
  {
    var withEarlier := [earlier] + between + [later];
    assert withEarlier[..|withEarlier| - 1] == [earlier] + between;
    var without := between + [later];
    assert without[..|without| - 1] == between;
    ConfigureFirst(s, earlier, between);
    ConfigureKeepsAgreement(Step(s, earlier), s, Writes(earlier), between);
  }

  /** `KeepUpToDate()` is the only way to the flag, and nothing takes it back. */
  lemma {:induction false} KeepUpToDateIsSticky(s: BuilderState, calls: seq<BuilderCall>)
    ensures Configure(s, calls).keepUpToDate <==> s.keepUpToDate || KeepUpToDate in calls
    decreases |calls|
  {
    if calls != [] {
      var init := calls[..|calls| - 1];
      KeepUpToDateIsSticky(s, init);
      assert calls == init + [calls[|calls| - 1]];
    }
  }

  /** Calling `KeepUpToDate()` twice is calling it once. */
  lemma KeepUpToDateIdempotent(s: BuilderState)
    ensures Step(Step(s, KeepUpToDate), KeepUpToDate) == Step(s, KeepUpToDate)
    ensures Step(s, KeepUpToDate).keepUpToDate
  {
  }

  /** A ".git" suffix on the URL does not move the repository path. */
  lemma RepositoryPathIgnoresGitSuffix(paths: PathOps, targetPath: string, gitUrl: string)
    requires !GitUrl.EndsWith(gitUrl, GitUrl.GitSuffix)
    ensures RepositoryPath(paths, targetPath, gitUrl + GitUrl.GitSuffix) == RepositoryPath(paths, targetPath, gitUrl)
  {
    GitUrl.ProjectNameIgnoresGitSuffix(gitUrl);
  }

  /** Running two sequences of calls one after the other is running them concatenated. */
  lemma {:induction false} ConfigureConcat(s: BuilderState, xs: seq<BuilderCall>, ys: seq<BuilderCall>)
    ensures Configure(s, xs + ys) == Configure(Configure(s, xs), ys)
    decreases |ys|
  {
    if ys != [] {
      var all := xs + ys;
      assert all[..|all| - 1] == xs + ys[..|ys| - 1];
      ConfigureConcat(s, xs, ys[..|ys| - 1]);
    } else {
      assert xs + ys == xs;
    }
  }

  /** A field no call writes keeps the value it had. */
  lemma {:induction false} UnwrittenFieldKeepsValue(s: BuilderState, calls: seq<BuilderCall>, f: Field)
    requires forall k :: k in calls ==> Writes(k) != f
    ensures AgreeOn(s, Configure(s, calls), f)
    decreases |calls|
  {
    if calls != [] {
      var init := calls[..|calls| - 1];
      assert forall k :: k in init ==> k in calls;
      UnwrittenFieldKeepsValue(s, init, f);
      assert calls[|calls| - 1] in calls;
    }
  }

  /** Each field ends up holding the value of the last call that writes it. */
  lemma LastWriteDecides(s: BuilderState, calls: seq<BuilderCall>, i: nat)
    requires i < |calls|
    requires forall j :: i < j < |calls| ==> Writes(calls[j]) != Writes(calls[i])
    ensures Written(Configure(s, calls), calls[i])
  {
    var upTo, rest := calls[..i + 1], calls[i + 1..];
    assert calls == upTo + rest;
    ConfigureConcat(s, upTo, rest);
    assert upTo[..|upTo| - 1] == calls[..i];
    forall k | k in rest
      ensures Writes(k) != Writes(calls[i])
    {
      var j :| 0 <= j < |rest| && rest[j] == k;
      assert calls[i + 1 + j] == k;
    }
    UnwrittenFieldKeepsValue(Configure(s, upTo), rest, Writes(calls[i]));
  }

  /** Every filesystem a sequence of setter calls injects. */
  function InjectedFileSystems(calls: seq<BuilderCall>): set<FileSystem> {
    set k | k in calls && k.WithFileSystem? && k.fileSystem != null :: k.fileSystem as FileSystem
  }

  /** Every command executor a sequence of setter calls injects. */
  function InjectedExecutors(calls: seq<BuilderCall>): set<CommandExecutor> {
    set k | k in calls && k.WithProcessCommandExecutor? && k.processCommandsExecutor != null
      :: k.processCommandsExecutor as CommandExecutor
  }

  /** A collaborator the builder ends up holding was there from the start or was injected by a call. */
  lemma {:induction false} CollaboratorsComeFromCalls(s: BuilderState, calls: seq<BuilderCall>)
    ensures var t := Configure(s, calls);
      && (t.fileSystem != null && t.fileSystem != s.fileSystem ==> t.fileSystem in InjectedFileSystems(calls))
      && (t.processCommandsExecutor != null && t.processCommandsExecutor != s.processCommandsExecutor ==>
            t.processCommandsExecutor in InjectedExecutors(calls))
    decreases |calls|
  {
    if calls != [] {
      var init := calls[..|calls| - 1];
      CollaboratorsComeFromCalls(s, init);
      assert forall k :: k in init ==> k in calls;
      assert calls[|calls| - 1] in calls;
    }
  }
}
