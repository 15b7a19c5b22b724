/**
 * The older single-call flow: derive or take the project name, clone when
 * the repository directory is missing, then register the project only if
 * its file exists.
 */
module AspireGit {
  import opened Wrappers
  import opened Paths
  import opened Interfaces
  import GitUrl
  import ConfigBuilder

  /** One `git clone <url> <path>` process. */
  datatype GitClone = GitClone(gitUrl: string, path: string)

  /**
   * The `git` processes started; each runs to exit and its exit code is
   * ignored. What a finished clone leaves on the disk depends on the remote
   * and on whether the clone worked, so it is a parameter of the model.
   */
  class GitProcesses {
    var started: seq<GitClone>
    const cloned: (Disk, GitClone) -> Disk

    constructor (cloned: (Disk, GitClone) -> Disk)
      ensures started == [] && this.cloned == cloned
    {
      started := [];
      this.cloned := cloned;
    }

    /** Starts `git clone`, waits for it, and leaves the disk as the clone left it. */
    method CloneGitRepository(fs: FileSystem, gitUrl: string, resolvedRepositoryPath: string)
      modifies this`started, fs`disk
      ensures started == old(started) + [GitClone(gitUrl, resolvedRepositoryPath)]
      ensures fs.disk == cloned(old(fs.disk), GitClone(gitUrl, resolvedRepositoryPath))
    {
      started := started + [GitClone(gitUrl, resolvedRepositoryPath)];
      fs.disk := cloned(fs.disk, GitClone(gitUrl, resolvedRepositoryPath));
    }
  }

  /** The project handed to the host: its name and its project path. */
  datatype ProjectRegistration = ProjectRegistration(name: string, projectPath: string)

  /** The failure raised when the project is missing after the clone step. */
  datatype ProjectError = ProjectFolderNotFound(projectPath: string) {
    function Message(): string {
      "Project folder " + projectPath + " not found"
    }
  }

  /** `name ?? GetProjectNameFromGitUrl(gitUrl)`. */
  function ProjectName(gitUrl: string, name: Option<string>): string {
    name.GetOr(GitUrl.ProjectNameFromGitUrl(gitUrl))
  }

  function ResolvedRepositoryPath(paths: PathOps, gitUrl: string, name: Option<string>, repositoryPath: string): string {
    paths.combine(paths.getFullPath(repositoryPath), ProjectName(gitUrl, name))
  }

  function ResolvedProjectPath(paths: PathOps, gitUrl: string, name: Option<string>,
                               repositoryPath: string, relativeProjectPath: string): string {
    paths.join(ResolvedRepositoryPath(paths, gitUrl, name, repositoryPath), relativeProjectPath)
  }

  /** An explicit name decides both the directory and the registered name; the URL no longer matters. */
  lemma ExplicitNameOverrides(paths: PathOps, gitUrl: string, otherUrl: string, name: string, repositoryPath: string)
    ensures ProjectName(gitUrl, Some(name)) == name
    ensures ResolvedRepositoryPath(paths, gitUrl, Some(name), repositoryPath)
         == ResolvedRepositoryPath(paths, otherUrl, Some(name), repositoryPath)
         == paths.combine(paths.getFullPath(repositoryPath), name)
  {
  }

  /** Without an explicit name, this flow and the builder resolve the same repository directory. */
  lemma SameRepositoryPathAsBuilder(paths: PathOps, gitUrl: string, repositoryPath: string)
    ensures ResolvedRepositoryPath(paths, gitUrl, None, repositoryPath)
         == ConfigBuilder.RepositoryPath(paths, repositoryPath, gitUrl)
  {
  }

  /**
   * Probes the repository directory and clones only when it is missing
   * (there is no update path); then probes the project file on the disk as
   * the clone left it and either fails with "not found" or registers the
   * project.
   */
  method AddGitProject(fs: FileSystem, git: GitProcesses, paths: PathOps, gitUrl: string,
                       name: Option<string>, repositoryPath: string, relativeProjectPath: string)
    returns (r: Result<ProjectRegistration, ProjectError>)
    modifies fs`probes, fs`disk, git`started
    ensures fs.probes == old(fs.probes) + [DirectoryProbe(ResolvedRepositoryPath(paths, gitUrl, name, repositoryPath)),
                                           FileProbe(ResolvedProjectPath(paths, gitUrl, name, repositoryPath, relativeProjectPath))]
    ensures git.started == old(git.started)
      + if ResolvedRepositoryPath(paths, gitUrl, name, repositoryPath) in old(fs.disk).directories then []
        else [GitClone(gitUrl, ResolvedRepositoryPath(paths, gitUrl, name, repositoryPath))]
    ensures fs.disk ==
      if ResolvedRepositoryPath(paths, gitUrl, name, repositoryPath) in old(fs.disk).directories then old(fs.disk)
      else git.cloned(old(fs.disk), GitClone(gitUrl, ResolvedRepositoryPath(paths, gitUrl, name, repositoryPath)))
    ensures r.Success? <==> ResolvedProjectPath(paths, gitUrl, name, repositoryPath, relativeProjectPath) in fs.disk.files
    ensures r.Success? ==>
      r.value == ProjectRegistration(ProjectName(gitUrl, name), ResolvedProjectPath(paths, gitUrl, name, repositoryPath, relativeProjectPath))
    ensures r.Failure? ==>
      r.error == ProjectFolderNotFound(ResolvedProjectPath(paths, gitUrl, name, repositoryPath, relativeProjectPath))
  {
    var projectName := ProjectName(gitUrl, name);
    var resolvedRepositoryPath := ResolvedRepositoryPath(paths, gitUrl, name, repositoryPath);

    var hasRepository := fs.DirectoryExists(resolvedRepositoryPath);
    if !hasRepository {
      git.CloneGitRepository(fs, gitUrl, resolvedRepositoryPath);
    }

    var resolvedProjectPath := ResolvedProjectPath(paths, gitUrl, name, repositoryPath, relativeProjectPath);
    var hasProject := fs.FileExists(resolvedProjectPath);
    if !hasProject {
      return Failure(ProjectFolderNotFound(resolvedProjectPath));
    }
    return Success(ProjectRegistration(projectName, resolvedProjectPath));
  }
}
