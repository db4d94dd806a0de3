/** The Bitbucket Server REST client: the record types it exchanges, the
    endpoint paths it builds, how it turns an HTTP response into a result
    or an error, and the client object whose calls request a token, send
    one request and log one outcome line. */
module BitbucketServer {
  import opened Wrappers
  import opened Strings
  import Protocol

  // ---------------------------------------------------------------------------
  // Repository coordinates as the path builders take them.

  /** Bitbucket Server's namespace discriminator. */
  datatype ResourceKind = Projects | Users

  function KindName(k: ResourceKind): (s: string)
    ensures KindOf(s) == Some(k) && '/' !in s
  {
    match k
    case Projects => "projects"
    case Users => "users"
  }

  /** The resource kind a path segment names, if any. */
  function KindOf(s: string): Option<ResourceKind> {
    if s == "projects" then Some(Projects)
    else if s == "users" then Some(Users)
    else None
  }

  /** `{ resourceKind, userOrProject, repositorySlug }`. */
  datatype RepoParams = RepoParams(resourceKind: ResourceKind, userOrProject: string, repositorySlug: string)

  /** Owner and slug are single path segments. */
  predicate PlainSegments(p: RepoParams) {
    '/' !in p.userOrProject && '/' !in p.repositorySlug
  }

  // ---------------------------------------------------------------------------
  // The REST records (namespace `BitbucketServer`).

  datatype Link = Link(href: string)
  datatype CloneLink = CloneLink(href: string, name: string)
  datatype UserLinks = UserLinks(self: seq<Link>)
  datatype RepositoryLinks = RepositoryLinks(clone: seq<CloneLink>, self: seq<Link>)

  datatype User = User(
    name: string, emailAddress: string, id: int, displayName: string,
    active: bool, slug: string, userType: string, links: UserLinks)

  datatype Project = Project(key: string, owner: Option<User>, id: int, name: string, isPublic: bool)

  datatype Repository = Repository(
    id: int, slug: string, name: string, isPublic: bool,
    links: RepositoryLinks, project: Project)

  datatype Branch = Branch(id: string, displayId: string, branchType: string, latestCommit: string, isDefault: bool)

  datatype Commit = Commit(id: string, displayId: string, author: User)

  /** One page of a listing; only the fields named in the source. */
  datatype Paginated<T> = Paginated(
    isLastPage: Option<bool>, limit: Option<int>, size: Option<int>, start: Option<int>,
    values: Option<seq<T>>)

  datatype WebhookConfiguration = WebhookConfiguration(secret: string)

  /** A webhook as the listing endpoint reports it. */
  datatype Webhook = Webhook(
    id: int, name: string, createdDate: int, updatedDate: int,
    events: seq<string>, configuration: WebhookConfiguration, url: string, active: bool)

  datatype PermissionEntry = PermissionEntry(user: User, permission: string)

  /** The body posted to create a webhook. */
  datatype WebhookParams = WebhookParams(
    name: string, events: seq<string>, configuration: WebhookConfiguration, url: string, active: bool)

  /** The optional `q` argument of `getCommits`. */
  datatype CommitsQuery = CommitsQuery(limit: int)

  // Reading an endpoint path back, segment by segment.
  // Endpoint paths, relative to the REST base URL.

  /** A repository endpoint read back from a path: the repository and the
      segments after `/repos/{slug}`. */
  datatype Endpoint = Endpoint(repo: RepoParams, rest: seq<string>)

  function ParseRepoPath(path: string): Option<Endpoint> {
    var segs := Split(path);
    if |segs| >= 5 && segs[0] == "" && KindOf(segs[1]).Some? && segs[3] == "repos" then
      Some(Endpoint(RepoParams(KindOf(segs[1]).value, segs[2], segs[4]), segs[5..]))
    else
      None
  }

  /** The repository prefix followed by `/`-separated segments decodes back
      to the repository and those segments. */
  lemma DecodeRepoPrefix(p: RepoParams, tail: string)
    requires PlainSegments(p)
    requires tail == "" || tail[0] == '/'
    ensures ParseRepoPath(RepoPrefix(p) + tail) == Some(Endpoint(p, if tail == "" then [] else Split(tail[1..])))
  {
    var kind, owner, slug := KindName(p.resourceKind), p.userOrProject, p.repositorySlug;
    var path := RepoPrefix(p) + tail;
    var rest := if tail == "" then [] else Split(tail[1..]);
    assert Split(slug + tail) == [slug] + rest by {
      if tail == "" {
        assert slug + tail == slug;
        SplitNoSlash(slug);
      } else {
        assert slug + tail == slug + "/" + tail[1..];
        SplitAtSlash(slug, tail[1..]);
      }
    }
    assert path == "" + "/" + (kind + "/" + (owner + "/" + ("repos" + "/" + (slug + tail))));
    SplitAtSlash("repos", slug + tail);
    SplitAtSlash(owner, "repos" + "/" + (slug + tail));
    SplitAtSlash(kind, owner + "/" + ("repos" + "/" + (slug + tail)));
    SplitAtSlash("", kind + "/" + (owner + "/" + ("repos" + "/" + (slug + tail))));
    assert Split(path) == ["", kind, owner, "repos", slug] + rest;
  }

  /** The repository prefix followed by one more segment. */
  lemma DecodeOneSegment(p: RepoParams, segment: string)
    requires PlainSegments(p) && '/' !in segment
    ensures ParseRepoPath(RepoPrefix(p) + "/" + segment) == Some(Endpoint(p, [segment]))
  {
    var tail := "/" + segment;
    assert RepoPrefix(p) + "/" + segment == RepoPrefix(p) + tail;
    assert tail[1..] == segment;
    DecodeRepoPrefix(p, tail);
    SplitNoSlash(segment);
  }

  // ---------------------------------------------------------------------------
  // Endpoint paths, relative to the REST base URL. Each one reads back, through
  // `ParseRepoPath`, as the repository it was built from and its own segments.

  /** `/{resourceKind}/{userOrProject}/repos/{repositorySlug}`, shared by every endpoint. */
  function RepoPrefix(p: RepoParams): string {
    "/" + KindName(p.resourceKind) + "/" + p.userOrProject + "/repos/" + p.repositorySlug
  }

  function RepositoryPath(p: RepoParams): (r: string)
    ensures PlainSegments(p) ==> ParseRepoPath(r) == Some(Endpoint(p, []))
  {
    if PlainSegments(p) then
      assert RepoPrefix(p) == RepoPrefix(p) + "";
      DecodeRepoPrefix(p, "");
      RepoPrefix(p)
    else
      RepoPrefix(p)
  }

  /** The query `q` is accepted and not used. */
  function CommitsPath(p: RepoParams, q: Option<CommitsQuery>): (r: string)
    ensures PlainSegments(p) ==> ParseRepoPath(r) == Some(Endpoint(p, ["commits"]))
  {
    if PlainSegments(p) then
      assert RepoPrefix(p) + "/commits" == RepoPrefix(p) + "/" + "commits";
      DecodeOneSegment(p, "commits");
      RepoPrefix(p) + "/commits"
    else
      RepoPrefix(p) + "/commits"
  }

  function DefaultBranchPath(p: RepoParams): (r: string)
    ensures PlainSegments(p) ==> ParseRepoPath(r) == Some(Endpoint(p, ["default-branch"]))
  {
    if PlainSegments(p) then
      assert RepoPrefix(p) + "/default-branch" == RepoPrefix(p) + "/" + "default-branch";
      DecodeOneSegment(p, "default-branch");
      RepoPrefix(p) + "/default-branch"
    else
      RepoPrefix(p) + "/default-branch"
  }

  /** Listing and creating webhooks use this one path. */
  function WebhooksPath(p: RepoParams): (r: string)
    ensures PlainSegments(p) ==> ParseRepoPath(r) == Some(Endpoint(p, ["webhooks"]))
  {
    if PlainSegments(p) then
      assert RepoPrefix(p) + "/webhooks" == RepoPrefix(p) + "/" + "webhooks";
      DecodeOneSegment(p, "webhooks");
      RepoPrefix(p) + "/webhooks"
    else
      RepoPrefix(p) + "/webhooks"
  }

  lemma CommitsPathIgnoresQuery(p: RepoParams, q1: Option<CommitsQuery>, q2: Option<CommitsQuery>)
    ensures CommitsPath(p, q1) == CommitsPath(p, q2) == CommitsPath(p, None)
  {
  }

  // ---------------------------------------------------------------------------
  // HTTP requests and responses, abstractly.

  /** What the client hands to `fetch`: method, full URL, the bearer
      `Authorization` header and the optional body. */
  datatype Request = Request(httpMethod: string, url: string, authorization: string, body: Option<string>)

  /** The parts of a `fetch` response the client reads. */
  datatype Response = Response(ok: bool, status: nat, statusText: string, body: string)

  /** `fetch` either yields a response or throws (a timeout, a network error). */
  datatype FetchResult = Received(response: Response) | Thrown(message: string)

  /** The REST base URL of the instance at `host`; the host can be read back from it. */
  function BaseUrl(host: string): (u: string)
    ensures |u| == |host| + 21
    ensures u[..8] == "https://" && u[8..|u| - 13] == host && u[|u| - 13..] == "/rest/api/1.0"
  {
    "https://" + host + "/rest/api/1.0"
  }

  function Bearer(token: string): string {
    "Bearer " + token
  }

  /** The request of `runQuery(user, urlPath, method, body)` once `token`
      is known; a missing method means `GET`. */
  function QueryRequest(host: string, token: string, urlPath: string, httpMethod: Option<string>, body: Option<string>): (q: Request)
    ensures q.url == "https://" + host + "/rest/api/1.0" + urlPath
    ensures q.authorization == "Bearer " + token
    ensures httpMethod.None? ==> q.httpMethod == "GET"
    ensures httpMethod.Some? ==> q.httpMethod == httpMethod.value
    ensures q.body == body
  {
    Request(httpMethod.GetOr("GET"), BaseUrl(host) + urlPath, Bearer(token), body)
  }

  /** The request of `fetchContent(user, urlPath)`: always `GET`, no body. */
  function ContentRequest(host: string, token: string, urlPath: string): (q: Request)
    ensures q == QueryRequest(host, token, urlPath, None, None)
  {
    Request("GET", BaseUrl(host) + urlPath, Bearer(token), None)
  }

  /** The message of the error thrown for a response that is not ok. */
  function ErrorMessage(r: Response): string {
    NatToString(r.status) + " / " + r.statusText
  }

  /** The status an error message starts with. */
  function StatusOf(message: string): nat {
    DigitsValue(LeadingDigits(message))
  }

  /** What follows the status and the separator `" / "`. */
  function StatusTextOf(message: string): string {
    var d := LeadingDigits(message);
    if |d| + 3 <= |message| then message[|d| + 3..] else ""
  }

  /** The error message determines the status and the status text. */
  lemma {:induction false} ErrorMessageCarriesStatus(r: Response)
    ensures StatusOf(ErrorMessage(r)) == r.status
    ensures StatusTextOf(ErrorMessage(r)) == r.statusText
  {
    var digits := NatToString(r.status);
    assert ErrorMessage(r) == digits + (" / " + r.statusText);
    LeadingDigitsOfConcat(digits, " / " + r.statusText);
    DigitsValueOfNatToString(r.status);
    assert ErrorMessage(r)[|digits| + 3..] == r.statusText;
  }

  /** The error rule of both calls: a response that is not ok becomes an
      error carrying its status and status text and never its body; an ok
      response gives its body; a thrown error keeps its message. */
  function Checked(f: FetchResult): (r: Result<string, string>)
    ensures r.Ok? <==> f.Received? && f.response.ok
    ensures r.Ok? ==> r.value == f.response.body
    ensures f.Received? && !f.response.ok ==> r == Err(ErrorMessage(f.response))
    ensures f.Received? && !f.response.ok ==>
      StatusOf(r.error) == f.response.status && StatusTextOf(r.error) == f.response.statusText
    ensures f.Thrown? ==> r == Err(f.message)
  {
    match f
    case Thrown(message) => Err(message)
    case Received(response) =>
      if response.ok then Ok(response.body)
      else
        ErrorMessageCarriesStatus(response);
        Err(ErrorMessage(response))
  }

  /** `runQuery` decodes an ok body as JSON; a decoding error is thrown too. */
  function Decoded<T>(c: Result<string, string>, decode: string -> Result<T, string>): (r: Result<T, string>)
    ensures c.Err? ==> r == Err(c.error)
    ensures c.Ok? ==> r == decode(c.value)
  {
    match c
    case Err(e) => Err(e)
    case Ok(text) => decode(text)
  }

  /** The outcome word of the debug line. */
  function Outcome<T>(r: Result<T, string>): (o: string)
    ensures o == "OK" <==> r.Ok?
    ensures r.Err? ==> o == "error " + r.error
  {
    match r
    case Ok(_) => "OK"
    case Err(e) =>
      assert ("error " + e)[0] == 'e';
      "error " + e
  }

  /** The debug line of a call; it says GET whatever the method. */
  function LogLine(url: string, outcome: string): (l: string)
    ensures |l| == 8 + |url| + 3 + |outcome|
    ensures l[..8] == "BBS GET " && l[8..8 + |url|] == url
    ensures l[8 + |url|..8 + |url| + 3] == " \U{2013} " && l[8 + |url| + 3..] == outcome
  {
    "BBS GET " + url + " \U{2013} " + outcome
  }

  // ---------------------------------------------------------------------------
  // The client.

  /** One call of the token helper `getTokenWithScopes(user, scopes)`. */
  datatype TokenRequest = TokenRequest(user: Protocol.User, scopes: seq<string>)

  /** The token helper: a token value, or the message of the error it throws. */
  type TokenHelper = (Protocol.User, seq<string>) -> Result<string, string>

  /** The HTTP transport (`node-fetch`). */
  type Transport = Request -> FetchResult

  class BitbucketServerApi {
    const config: Protocol.AuthProviderParams
    const tokenHelper: TokenHelper
    const transport: Transport

    /** The token helper calls made, in order. */
    var tokenRequests: seq<TokenRequest>
    /** The requests handed to the transport, in order. */
    var sent: seq<Request>
    /** The debug lines written, in order. */
    var log: seq<string>

    constructor (config: Protocol.AuthProviderParams, tokenHelper: TokenHelper, transport: Transport)
      ensures this.config == config && this.tokenHelper == tokenHelper && this.transport == transport
      ensures tokenRequests == [] && sent == [] && log == []
    {
      this.config := config;
      this.tokenHelper := tokenHelper;
      this.transport := transport;
      tokenRequests, sent, log := [], [], [];
    }

    /** The effect of `runQuery(user, urlPath, method, body)` with result `r`:
        one token request with no scopes; if the helper throws, its error and
        nothing else; otherwise exactly one request and exactly one debug line
        carrying the outcome of `r`. */
    twostate predicate RanQuery<T>(
      user: Protocol.User, urlPath: string, httpMethod: Option<string>, body: Option<string>,
      decode: string -> Result<T, string>, new r: Result<T, string>)
      reads this
    {
      && tokenRequests == old(tokenRequests) + [TokenRequest(user, [])]
      && match tokenHelper(user, [])
         case Err(e) =>
           r == Err(e) && sent == old(sent) && log == old(log)
         case Ok(token) =>
           var q := QueryRequest(config.host, token, urlPath, httpMethod, body);
           && sent == old(sent) + [q]
           && r == Decoded(Checked(transport(q)), decode)
           && log == old(log) + [LogLine(q.url, Outcome(r))]
    }

    method RunQuery<T>(
      user: Protocol.User, urlPath: string, httpMethod: Option<string>, body: Option<string>,
      decode: string -> Result<T, string>)
      returns (r: Result<T, string>)
      modifies this
      ensures RanQuery(user, urlPath, httpMethod, body, decode, r)
    {
      tokenRequests := tokenRequests + [TokenRequest(user, [])];
      var token := tokenHelper(user, []);
      if token.Err? {
        return Err(token.error);
      }
      var fullUrl := BaseUrl(config.host) + urlPath;
      var result := "OK";
      var request := Request(httpMethod.GetOr("GET"), fullUrl, Bearer(token.value), body);
      sent := sent + [request];
      var response := transport(request);
      if response.Thrown? {
        result := "error " + response.message;
        r := Err(response.message);
      } else if !response.response.ok {
        var message := ErrorMessage(response.response);
        result := "error " + message;
        r := Err(message);
      } else {
        r := decode(response.response.body);
        if r.Err? {
          result := "error " + r.error;
        }
      }
      log := log + [LogLine(fullUrl, result)];
    }

    /** `fetchContent(user, urlPath)`: like `runQuery` with `GET` and no body,
        but the body is returned as text, unconverted. */
    method FetchContent(user: Protocol.User, urlPath: string) returns (r: Result<string, string>)
      modifies this
      ensures tokenRequests == old(tokenRequests) + [TokenRequest(user, [])]
      ensures tokenHelper(user, []).Err? ==>
        r == Err(tokenHelper(user, []).error) && sent == old(sent) && log == old(log)
      ensures tokenHelper(user, []).Ok? ==>
        var q := ContentRequest(config.host, tokenHelper(user, []).value, urlPath);
        && sent == old(sent) + [q]
        && r == Checked(transport(q))
        && log == old(log) + [LogLine(q.url, Outcome(r))]
    {
      tokenRequests := tokenRequests + [TokenRequest(user, [])];
      var token := tokenHelper(user, []);
      if token.Err? {
        return Err(token.error);
      }
      var fullUrl := BaseUrl(config.host) + urlPath;
      var result := "OK";
      var request := Request("GET", fullUrl, Bearer(token.value), None);
      sent := sent + [request];
      var response := transport(request);
      if response.Thrown? {
        result := "error " + response.message;
        r := Err(response.message);
      } else if !response.response.ok {
        var message := ErrorMessage(response.response);
        result := "error " + message;
        r := Err(message);
      } else {
        r := Ok(response.response.body);
      }
      log := log + [LogLine(fullUrl, result)];
    }

    method GetRepository(user: Protocol.User, params: RepoParams, decode: string -> Result<Repository, string>)
      returns (r: Result<Repository, string>)
      modifies this
      ensures RanQuery(user, RepositoryPath(params), None, None, decode, r)
    {
      r := RunQuery(user, RepositoryPath(params), None, None, decode);
    }

    method GetCommits(
      user: Protocol.User, params: RepoParams, q: Option<CommitsQuery>,
      decode: string -> Result<Paginated<Commit>, string>)
      returns (r: Result<Paginated<Commit>, string>)
      modifies this
      ensures RanQuery(user, CommitsPath(params, None), None, None, decode, r)
    {
      r := RunQuery(user, CommitsPath(params, q), None, None, decode);
    }

    method GetDefaultBranch(user: Protocol.User, params: RepoParams, decode: string -> Result<Branch, string>)
      returns (r: Result<Branch, string>)
      modifies this
      ensures RanQuery(user, DefaultBranchPath(params), None, None, decode, r)
    {
      r := RunQuery(user, DefaultBranchPath(params), None, None, decode);
    }

    method GetWebhooks(user: Protocol.User, params: RepoParams, decode: string -> Result<Paginated<Webhook>, string>)
      returns (r: Result<Paginated<Webhook>, string>)
      modifies this
      ensures RanQuery(user, WebhooksPath(params), None, None, decode, r)
    {
      r := RunQuery(user, WebhooksPath(params), None, None, decode);
    }

    /** Posts the serialised webhook to the listing path. */
    method SetWebhook<T>(
      user: Protocol.User, params: RepoParams, webhook: WebhookParams,
      stringify: WebhookParams -> string, decode: string -> Result<T, string>)
      returns (r: Result<T, string>)
      modifies this
      ensures RanQuery(user, WebhooksPath(params), Some("POST"), Some(stringify(webhook)), decode, r)
    {
      var body := stringify(webhook);
      r := RunQuery(user, WebhooksPath(params), Some("POST"), Some(body), decode);
    }
  }
}
