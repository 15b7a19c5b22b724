/**
 * The two collaborators the reconciler talks to: a filesystem oracle that
 * answers existence questions, and a command executor whose effects are
 * opaque. Each keeps a record of what it was asked, so that "exactly this
 * call and nothing else" can be stated.
 */
module Interfaces {
  import opened Wrappers

  /** What the host's disk holds at the time of a probe. */
  datatype Disk = Disk(directories: set<string>, files: set<string>)

  /** One existence question put to the filesystem. */
  datatype Probe = DirectoryProbe(path: string) | FileProbe(path: string)

  /** `IFileSystem`: existence questions only, never a change to the disk. */
  class FileSystem {
    var disk: Disk
    var probes: seq<Probe>

    constructor (disk: Disk)
      ensures this.disk == disk && probes == []
    {
      this.disk := disk;
      probes := [];
    }

    method DirectoryExists(path: string) returns (b: bool)
      modifies this`probes
      ensures b <==> path in disk.directories
      ensures probes == old(probes) + [DirectoryProbe(path)]
    {
      b := path in disk.directories;
      probes := probes + [DirectoryProbe(path)];
    }

    method FileExists(path: string) returns (b: bool)
      modifies this`probes
      ensures b <==> path in disk.files
      ensures probes == old(probes) + [FileProbe(path)]
    {
      b := path in disk.files;
      probes := probes + [FileProbe(path)];
    }
  }

  /** The git-level side effects the reconciler may ask for. */
  datatype Command =
    | Clone(gitUrl: string, repositoryPath: string, branch: Option<string>)
    | AddWorktree(repositoryPath: string, worktreePath: string, branch: Option<string>)
    | PullAndReset(path: string)
  {
    /** The directory the command creates or rewrites. */
    function Target(): string {
      match this
      case Clone(_, path, _) => path
      case AddWorktree(_, worktreePath, _) => worktreePath
      case PullAndReset(path) => path
    }

    /** Whether the command brings a new working copy into being. */
    predicate Creates() {
      Clone? || AddWorktree?
    }
  }

  /** `IProcessCommandExecutor`: its state is the history of commands it was given. */
  class CommandExecutor {
    var calls: seq<Command>

    constructor ()
      ensures calls == []
    {
      calls := [];
    }

    method CloneGitRepository(gitUrl: string, repositoryPath: string, branch: Option<string>)
      modifies this`calls
      ensures calls == old(calls) + [Clone(gitUrl, repositoryPath, branch)]
    {
      calls := calls + [Clone(gitUrl, repositoryPath, branch)];
    }

    method CreateWorktree(repositoryPath: string, worktreePath: string, branch: Option<string>)
      modifies this`calls
      ensures calls == old(calls) + [AddWorktree(repositoryPath, worktreePath, branch)]
    {
      calls := calls + [AddWorktree(repositoryPath, worktreePath, branch)];
    }

    method PullAndResetRepository(path: string)
      modifies this`calls
      ensures calls == old(calls) + [PullAndReset(path)]
    {
      calls := calls + [PullAndReset(path)];
    }
  }
}
