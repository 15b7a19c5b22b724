/**
 * Deriving a project name from a git URL: strip one trailing ".git",
 * split on '/', keep the last piece.
 */
module GitUrl {

  const GitSuffix: string := ".git"
  const Slash: char := '/'

  /** `s.EndsWith(t)`, compared character by character. */
  predicate EndsWith(s: string, t: string) {
    |t| <= |s| && s[|s| - |t|..] == t
  }

  /** Removes one trailing ".git", if there is one. */
  function StripGitSuffix(url: string): string {
    if EndsWith(url, GitSuffix) then url[..|url| - 4] else url
  }

  /** Exactly one ".git" goes, and only when the URL ends in one; everything before it stays. */
  lemma StripRemovesOneSuffix(url: string)
    ensures EndsWith(url, GitSuffix) ==> StripGitSuffix(url) + GitSuffix == url
    ensures !EndsWith(url, GitSuffix) ==> StripGitSuffix(url) == url
  {
    if EndsWith(url, GitSuffix) {
      assert url == url[..|url| - 4] + url[|url| - 4..];
    }
  }

  /** The pieces joined back together, `sep` between neighbours (`string.Join`). */
  function Join(parts: seq<string>, sep: char): string
    requires |parts| >= 1
  {
    if |parts| == 1 then parts[0] else parts[0] + [sep] + Join(parts[1..], sep)
  }

  /**
   * `s.Split(sep)`: every piece between separators, empty pieces included,
   * so there is always at least one piece.
   */
  function Split(s: string, sep: char): (parts: seq<string>)
    ensures |parts| >= 1
    ensures forall i :: 0 <= i < |parts| ==> sep !in parts[i]
    ensures Join(parts, sep) == s
    decreases |s|
  {
    if s == [] then [""]
    else
      var rest := Split(s[1..], sep);
      if s[0] == sep then [""] + rest
      else [[s[0]] + rest[0]] + rest[1..]
  }

  /** `s.Split('/')[^1]`. */
  function LastSegment(s: string): string {
    var parts := Split(s, Slash);
    parts[|parts| - 1]
  }

  /**
   * Independent description of the last segment: a suffix of `s` free of
   * '/', which is either all of `s` or preceded by a '/'.
   */
  predicate IsFinalSegment(s: string, r: string) {
    && |r| <= |s|
    && s[|s| - |r|..] == r
    && Slash !in r
    && (|r| < |s| ==> s[|s| - |r| - 1] == Slash)
  }

  /** The project name the source derives from a git URL. */
  function ProjectNameFromGitUrl(gitUrl: string): string {
    LastSegment(StripGitSuffix(gitUrl))
  }

  /**
   * The project name is the final '/'-segment of the URL once one ".git" is
   * stripped: it never holds a '/'.
   */
  lemma ProjectNameIsFinalSegment(gitUrl: string)
    ensures Slash !in ProjectNameFromGitUrl(gitUrl)
    ensures IsFinalSegment(StripGitSuffix(gitUrl), ProjectNameFromGitUrl(gitUrl))
  {
    LastSegmentIsFinalSegment(StripGitSuffix(gitUrl));
  }

  /** The last piece of a split is exactly the final segment. */
  lemma {:induction false} LastSegmentIsFinalSegment(s: string)
    ensures IsFinalSegment(s, LastSegment(s))
    decreases |s|
  {
    if s != [] {
      var rest := Split(s[1..], Slash);
      LastSegmentIsFinalSegment(s[1..]);
      var last := rest[|rest| - 1];
      if s[0] == Slash {
        assert Split(s, Slash) == [""] + rest;
        assert LastSegment(s) == last;
        assert s[|s| - |last|..] == s[1..][|s| - 1 - |last|..];
      } else if |rest| == 1 {
        assert Split(s, Slash) == [[s[0]] + rest[0]];
        assert rest[0] == Join(rest, Slash) == s[1..];
        assert LastSegment(s) == [s[0]] + s[1..] == s;
      } else {
        assert Split(s, Slash) == [[s[0]] + rest[0]] + rest[1..];
        assert LastSegment(s) == last;
        assert s[|s| - |last|..] == s[1..][|s| - 1 - |last|..];
      }
    }
  }

  /** A suffix of `s` free of '/' is no longer than the final segment. */
  lemma FinalSegmentIsLongest(s: string, r: string, r': string)
    requires IsFinalSegment(s, r)
    requires |r'| <= |s| && s[|s| - |r'|..] == r' && Slash !in r'
    ensures |r'| <= |r|
  {
    if |r| < |s| {
      assert forall j :: |s| - |r'| <= j < |s| ==> s[j] == r'[j - (|s| - |r'|)];
      assert s[|s| - |r| - 1] == Slash;
    }
  }

  /** At most one string is the final segment of `s`. */
  lemma FinalSegmentUnique(s: string, r1: string, r2: string)
    requires IsFinalSegment(s, r1) && IsFinalSegment(s, r2)
    ensures r1 == r2
  {
    FinalSegmentIsLongest(s, r1, r2);
    FinalSegmentIsLongest(s, r2, r1);
  }

  /** The final segment is whatever follows the last '/'. */
  lemma LastSegmentAfterSlash(p: string, q: string)
    requires Slash !in q
    ensures LastSegment(p + [Slash] + q) == q
  {
    var s := p + [Slash] + q;
    LastSegmentIsFinalSegment(s);
    assert s[|s| - |q|..] == q;
    assert s[|s| - |q| - 1] == Slash;
    FinalSegmentUnique(s, LastSegment(s), q);
  }

  /** Without any '/', the whole string is the segment. */
  lemma LastSegmentWithoutSlash(s: string)
    requires Slash !in s
    ensures LastSegment(s) == s
  {
    LastSegmentIsFinalSegment(s);
    assert s[|s| - |s|..] == s;
    FinalSegmentUnique(s, LastSegment(s), s);
  }

  /** Only one ".git" is removed: "a/b.git.git" names the project "b.git". */
  lemma RemovesOnlyOneGitSuffix(prefix: string, name: string)
    requires Slash !in name
    ensures ProjectNameFromGitUrl(prefix + [Slash] + name + GitSuffix + GitSuffix) == name + GitSuffix
  {
    var url := prefix + [Slash] + name + GitSuffix + GitSuffix;
    assert url[|url| - 4..] == GitSuffix;
    assert StripGitSuffix(url) == prefix + [Slash] + (name + GitSuffix);
    LastSegmentAfterSlash(prefix, name + GitSuffix);
  }

  /** A URL ending in '/' gives the empty project name. */
  lemma TrailingSlashGivesEmptyName(prefix: string)
    ensures ProjectNameFromGitUrl(prefix + [Slash]) == ""
  {
    var url := prefix + [Slash];
    assert !EndsWith(url, GitSuffix) by {
      if |GitSuffix| <= |url| {
        assert url[|url| - 4..][3] == Slash;
      }
    }
    assert url == prefix + [Slash] + "";
    LastSegmentAfterSlash(prefix, "");
  }

  /** Appending ".git" to a URL that lacks it does not change the project name. */
  lemma ProjectNameIgnoresGitSuffix(url: string)
    requires !EndsWith(url, GitSuffix)
    ensures ProjectNameFromGitUrl(url + GitSuffix) == ProjectNameFromGitUrl(url)
  {
    var u := url + GitSuffix;
    assert u[|u| - 4..] == GitSuffix;
    assert u[..|u| - 4] == url;
  }

  /**
   * `host/org/repo.git` and `host/org/repo` both name the project `repo`
   * (the repository name itself neither holds '/' nor ends in ".git").
   */
  lemma ProjectNameOfRepositoryUrl(prefix: string, repo: string)
    requires Slash !in repo && !EndsWith(repo, GitSuffix)
    ensures ProjectNameFromGitUrl(prefix + [Slash] + repo) == repo
    ensures ProjectNameFromGitUrl(prefix + [Slash] + repo + GitSuffix) == repo
  {
    var url := prefix + [Slash] + repo;
    if |url| >= 4 {
      if |repo| >= 4 {
        assert url[|url| - 4..] == repo[|repo| - 4..];
      } else {
        assert url[|url| - 4..][3 - |repo|] == Slash;
      }
    }
    LastSegmentAfterSlash(prefix, repo);
    ProjectNameIgnoresGitSuffix(url);
  }

  /** The URL the project's tests use names the project "repo". */
  lemma TestUrlProjectName()
    ensures ProjectNameFromGitUrl("https://github.com/example/repo.git") == "repo"
  {
    assert StripGitSuffix("https://github.com/example/repo.git") == "https://github.com/example" + [Slash] + "repo";
    LastSegmentAfterSlash("https://github.com/example", "repo");
  }

  /** With and without ".git", `https://host/org/repo` names the project "repo". */
  lemma HostUrlProjectNames()
    ensures ProjectNameFromGitUrl("https://host/org/repo.git") == "repo"
    ensures ProjectNameFromGitUrl("https://host/org/repo") == "repo"
  {
    assert StripGitSuffix("https://host/org/repo.git") == "https://host/org" + [Slash] + "repo";
    assert StripGitSuffix("https://host/org/repo") == "https://host/org" + [Slash] + "repo";
    LastSegmentAfterSlash("https://host/org", "repo");
  }

  /** "a/b.git.git" names the project "b.git". */
  lemma DoubleSuffixExample()
    ensures ProjectNameFromGitUrl("a/b.git.git") == "b.git"
  {
    assert StripGitSuffix("a/b.git.git") == "a" + [Slash] + "b.git";
    LastSegmentAfterSlash("a", "b.git");
  }

  /** A bare "repo.git" names the project "repo". */
  lemma BareNameExample()
    ensures ProjectNameFromGitUrl("repo.git") == "repo"
  {
    assert StripGitSuffix("repo.git") == "repo";
    LastSegmentWithoutSlash("repo");
  }
}
