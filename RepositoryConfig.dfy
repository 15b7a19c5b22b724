/** The resolved, immutable description of one repository to provision. */
module RepositoryConfigs {
  import opened Wrappers
  import opened Interfaces

  datatype RepositoryConfig = RepositoryConfig(
    gitUrl: string,
    repositoryPath: string,
    branch: Option<string>,
    keepUpToDate: bool,
    processCommandsExecutor: CommandExecutor,
    fileSystem: FileSystem,
    worktreePath: Option<string>)
  {
    /** `!string.IsNullOrEmpty(WorktreePath)`: the config asks for a worktree. */
    predicate UsesWorktree() {
      worktreePath.Some? && worktreePath.value != ""
    }

    /** The only directory whose existence decides what to do. */
    function ProbedPath(): string {
      if UsesWorktree() then worktreePath.value else repositoryPath
    }
  }

  /** `NoRepositoryUrlException`. */
  datatype ConfigError = NoRepositoryUrl
}
