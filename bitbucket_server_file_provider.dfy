/** The file provider: reads a file of a repository through the raw-content
    endpoint, best effort. The context parser and the API client's
    `fetchContent` are collaborators given as functions; a lookup reports
    the calls it made to them. */
module BitbucketServerFileProvider {
  import opened Wrappers
  import opened Strings
  import opened Protocol
  import Api = BitbucketServer
  import opened ContextParser

  /** `MaybeContent`: the file's text, or `undefined`. */
  type MaybeContent = Option<string>

  /** The API client's `fetchContent(user, path)`: the text, or the message of the error it throws. */
  type ContentFetcher = (User, string) -> Result<string, string>

  /** The result of a lookup (or the error that escapes it) and the calls it made. */
  datatype Lookup = Lookup(outcome: Result<MaybeContent, string>, calls: seq<Call>)

  /** The platform's per-repository configuration file. */
  const GITPOD_FILE: string := ".gitpod.yml"

  /** `/{resourceKind}/{owner}/repos/{repoName}/raw/{path}`: the parsed
      repository, then `raw`, then the segments of the file path. */
  function RawPath(c: Coordinates, path: string): (r: string)
    ensures Api.PlainSegments(c.Params()) ==>
      Api.ParseRepoPath(r) == Some(Api.Endpoint(c.Params(), ["raw"] + Split(path)))
  {
    var tail := "/raw/" + path;
    if Api.PlainSegments(c.Params()) then
      assert Api.RepoPrefix(c.Params()) + "/raw/" + path == Api.RepoPrefix(c.Params()) + tail;
      assert tail[1..] == "raw" + "/" + path;
      Api.DecodeRepoPrefix(c.Params(), tail);
      SplitAtSlash("raw", path);
      Api.RepoPrefix(c.Params()) + "/raw/" + path
    else
      Api.RepoPrefix(c.Params()) + "/raw/" + path
  }

  /** `getFileContent(commit, user, path)`. */
  function GetFileContent(commit: Commit, user: User, path: string, parse: Parser, fetch: ContentFetcher): (l: Lookup)
    // Without a revision or a web URL there is nothing to look up, and nothing is called.
    ensures !Truthy(commit.revision) || !Truthy(commit.repository.webUrl) ==> l == Lookup(Ok(None), [])
    // Otherwise the web URL is parsed first; a parser error escapes and nothing else is called.
    ensures Truthy(commit.revision) && Truthy(commit.repository.webUrl) ==>
      var url := commit.repository.webUrl.value;
      && l.calls != [] && l.calls[0] == ParseUrl(url)
      && (parse(user, url).Err? ==> l == Lookup(Err(parse(user, url).error), [ParseUrl(url)]))
    // With coordinates, exactly one fetch of the raw path follows; its text comes back
    // unchanged and its error becomes an absent result.
    ensures Truthy(commit.revision) && Truthy(commit.repository.webUrl) ==>
      var url := commit.repository.webUrl.value;
      parse(user, url).Ok? ==>
        var p := RawPath(parse(user, url).value, path);
        && l.calls == [ParseUrl(url), FetchContent(p)]
        && (fetch(user, p).Ok? ==> l.outcome == Ok(Some(fetch(user, p).value)))
        && (fetch(user, p).Err? ==> l.outcome == Ok(None))
    // Only a parser error escapes.
    ensures l.outcome.Err? ==> |l.calls| == 1 && l.calls[0].ParseUrl?
  {
    if !Truthy(commit.revision) || !Truthy(commit.repository.webUrl) then
      Lookup(Ok(None), [])
    else
      var url := commit.repository.webUrl.value;
      match parse(user, url)
      case Err(e) => Lookup(Err(e), [ParseUrl(url)])
      case Ok(c) =>
        var p := RawPath(c, path);
        var calls := [ParseUrl(url), FetchContent(p)];
        match fetch(user, p)
        case Ok(text) => Lookup(Ok(Some(text)), calls)
        case Err(_) => Lookup(Ok(None), calls)
  }

  /** `getGitpodFileContent(commit, user)`. */
  function GetGitpodFileContent(commit: Commit, user: User, parse: Parser, fetch: ContentFetcher): (l: Lookup)
    ensures l == GetFileContent(commit, user, ".gitpod.yml", parse, fetch)
  {
    GetFileContent(commit, user, GITPOD_FILE, parse, fetch)
  }

  /** `getLastChangeRevision`: a placeholder that names no real revision. */
  function GetLastChangeRevision(repository: Repository, revisionOrBranch: string, user: User, path: string): (r: string)
    ensures r == "f00"
  {
    "f00"
  }

  /** The revision only gates the lookup: any two present revisions give the
      same lookup, since the raw path does not mention the revision. */
  lemma RevisionDoesNotSelectContent(c1: Commit, c2: Commit, user: User, path: string, parse: Parser, fetch: ContentFetcher)
    requires c1.repository == c2.repository
    requires Truthy(c1.revision) && Truthy(c2.revision)
    ensures GetFileContent(c1, user, path, parse, fetch) == GetFileContent(c2, user, path, parse, fetch)
  {
  }
}
