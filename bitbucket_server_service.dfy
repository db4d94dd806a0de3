/** The prebuild webhook service: whether the current user may install the
    prebuild webhook on a repository, and installing it once. */
module Prebuilds {
  import opened Wrappers
  import opened Strings
  import opened Protocol
  import Api = BitbucketServer
  import opened ContextParser

  /** The scope of the token carried by the webhook's callback URL. */
  const PREBUILD_TOKEN_SCOPE: string := "prebuilds"

  /** The one permission that allows installing webhooks. */
  const REPO_ADMIN: string := "REPO_ADMIN"

  /** `/{resourceKind}/{owner}/repos/{repoName}/permissions/users`. */
  function PermissionsPath(p: Api.RepoParams): (r: string)
    ensures Api.PlainSegments(p) ==> Api.ParseRepoPath(r) == Some(Api.Endpoint(p, ["permissions", "users"]))
  {
    var tail := "/permissions/users";
    if Api.PlainSegments(p) then
      assert tail[1..] == "permissions" + "/" + "users";
      SplitAtSlash("permissions", "users");
      SplitNoSlash("users");
      assert Split(tail[1..]) == ["permissions", "users"];
      Api.DecodeRepoPrefix(p, tail);
      Api.RepoPrefix(p) + tail
    else
      Api.RepoPrefix(p) + tail
  }

  // ---------------------------------------------------------------------------
  // The two searches of the authorization check.

  /** `i` is the first identity linked to the provider `providerId`. */
  ghost predicate FirstLinked(identities: seq<Identity>, providerId: string, i: int) {
    && 0 <= i < |identities|
    && identities[i].authProviderId == providerId
    && forall j :: 0 <= j < i ==> identities[j].authProviderId != providerId
  }

  /** `identities.find(i => i.authProviderId === providerId)`. */
  function FindIdentity(identities: seq<Identity>, providerId: string): (r: Option<Identity>)
    ensures r.None? <==> forall i :: 0 <= i < |identities| ==> identities[i].authProviderId != providerId
    ensures r.Some? ==> exists i :: FirstLinked(identities, providerId, i) && r.value == identities[i]
  {
    if identities == [] then None
    else if identities[0].authProviderId == providerId then
      assert FirstLinked(identities, providerId, 0);
      Some(identities[0])
    else
      var r := FindIdentity(identities[1..], providerId);
      if r.Some? then
        assert forall i :: FirstLinked(identities[1..], providerId, i) ==> FirstLinked(identities, providerId, i + 1);
        r
      else
        assert identities == [identities[0]] + identities[1..];
        r
  }

  /** `i` is the first permission entry of the user called `name`. */
  ghost predicate FirstEntryFor(entries: seq<Api.PermissionEntry>, name: string, i: int) {
    && 0 <= i < |entries|
    && entries[i].user.name == name
    && forall j :: 0 <= j < i ==> entries[j].user.name != name
  }

  /** `entries.find(p => p.user.name === name)?.permission`. */
  function FindPermission(entries: seq<Api.PermissionEntry>, name: string): (r: Option<string>)
    ensures r.None? <==> forall i :: 0 <= i < |entries| ==> entries[i].user.name != name
    ensures r.Some? ==> exists i :: FirstEntryFor(entries, name, i) && r.value == entries[i].permission
  {
    if entries == [] then None
    else if entries[0].user.name == name then
      assert FirstEntryFor(entries, name, 0);
      Some(entries[0].permission)
    else
      var r := FindPermission(entries[1..], name);
      if r.Some? then
        assert forall i :: FirstEntryFor(entries[1..], name, i) ==> FirstEntryFor(entries, name, i + 1);
        r
      else
        assert entries == [entries[0]] + entries[1..];
        r
  }

  /** The reference definition of the permission rule: the first entry of
      the user called `name` in the listing grants exactly `REPO_ADMIN`. */
  ghost predicate IsRepoAdmin(values: Option<seq<Api.PermissionEntry>>, name: string) {
    && values.Some?
    && exists i :: FirstEntryFor(values.value, name, i) && values.value[i].permission == REPO_ADMIN
  }

  // ---------------------------------------------------------------------------
  // canInstallAutomatedPrebuilds

  /** The API client's `getWebhooks`, used as a probe: a page, or the error it throws. */
  type WebhookLister = (User, Api.RepoParams) -> Result<Api.Paginated<Api.Webhook>, string>

  /** The API client's `runQuery` on the permissions path. */
  type PermissionLister = (User, string) -> Result<Api.Paginated<Api.PermissionEntry>, string>

  /** Why the user may not install the webhook. */
  datatype Denial =
    | HostMismatch(host: string)
    | NotLinked
    | ProbeFailed(message: string)
    | NotRepoAdmin(permission: Option<string>)

  datatype Authorization = Authorized | Denied(reason: Denial)

  /** The decision (or the error that escapes it) and the calls made to reach it. */
  datatype Decision = Decision(verdict: Result<Authorization, string>, calls: seq<Call>)

  /** The guards up to the permission query pass: the URL parses to the
      configured host, the user has an identity at the provider, and the
      webhook listing can be read. */
  ghost predicate PastGuards(config: AuthProviderParams, user: User, cloneUrl: string, parse: Parser, listWebhooks: WebhookLister) {
    && parse(user, cloneUrl).Ok?
    && parse(user, cloneUrl).value.host == config.host
    && (exists i :: 0 <= i < |user.identities| && user.identities[i].authProviderId == config.id)
    && listWebhooks(user, parse(user, cloneUrl).value.Params()).Ok?
  }

  /** The user may install: past the guards, the permission listing is read
      and it grants `REPO_ADMIN` to the user's first linked identity. */
  ghost predicate MayInstall(
    config: AuthProviderParams, user: User, cloneUrl: string,
    parse: Parser, listWebhooks: WebhookLister, listPermissions: PermissionLister)
  {
    && PastGuards(config, user, cloneUrl, parse, listWebhooks)
    && var permissions := listPermissions(user, PermissionsPath(parse(user, cloneUrl).value.Params()));
    && permissions.Ok?
    && exists i :: FirstLinked(user.identities, config.id, i)
                 && IsRepoAdmin(permissions.value.values, user.identities[i].authName)
  }

  /** The decision of `canInstallAutomatedPrebuilds`, with its reason. */
  function Authorize(
    config: AuthProviderParams, user: User, cloneUrl: string,
    parse: Parser, listWebhooks: WebhookLister, listPermissions: PermissionLister): (d: Decision)
    // The clone URL is parsed first; a parser error escapes.
    ensures d.calls != [] && d.calls[0] == ParseUrl(cloneUrl)
    ensures parse(user, cloneUrl).Err? ==> d == Decision(Err(parse(user, cloneUrl).error), [ParseUrl(cloneUrl)])
    // A repository of another host is refused before any API call.
    ensures parse(user, cloneUrl).Ok? && parse(user, cloneUrl).value.host != config.host ==>
      d == Decision(Ok(Denied(HostMismatch(parse(user, cloneUrl).value.host))), [ParseUrl(cloneUrl)])
    // So is a user without an identity at this provider.
    ensures (&& parse(user, cloneUrl).Ok?
             && parse(user, cloneUrl).value.host == config.host
             && forall i :: 0 <= i < |user.identities| ==> user.identities[i].authProviderId != config.id) ==>
      d == Decision(Ok(Denied(NotLinked)), [ParseUrl(cloneUrl)])
    // A failed probe is a refusal, and the permissions are then not queried.
    ensures (&& parse(user, cloneUrl).Ok?
             && parse(user, cloneUrl).value.host == config.host
             && (exists i :: 0 <= i < |user.identities| && user.identities[i].authProviderId == config.id)
             && listWebhooks(user, parse(user, cloneUrl).value.Params()).Err?) ==>
      var repo := parse(user, cloneUrl).value.Params();
      d == Decision(Ok(Denied(ProbeFailed(listWebhooks(user, repo).error))),
                    [ParseUrl(cloneUrl), Query("GET", Api.WebhooksPath(repo), None)])
    ensures d.verdict.Ok? && d.verdict.value.Denied? && d.verdict.value.reason.ProbeFailed? ==>
      d.calls == [ParseUrl(cloneUrl), Query("GET", Api.WebhooksPath(parse(user, cloneUrl).value.Params()), None)]
    // Past the guards the permissions are queried, after the probe; their error escapes.
    ensures PastGuards(config, user, cloneUrl, parse, listWebhooks) ==>
      var repo := parse(user, cloneUrl).value.Params();
      && d.calls == [ParseUrl(cloneUrl), Query("GET", Api.WebhooksPath(repo), None), Query("GET", PermissionsPath(repo), None)]
      && var permissions := listPermissions(user, PermissionsPath(repo));
      && (permissions.Err? ==> d.verdict == Err(permissions.error))
      && (permissions.Ok? ==> d.verdict.Ok?)
    // The user is authorized exactly when the reference rule says so.
    ensures d.verdict == Ok(Authorized) <==> MayInstall(config, user, cloneUrl, parse, listWebhooks, listPermissions)
  {
    match parse(user, cloneUrl)
    case Err(e) => Decision(Err(e), [ParseUrl(cloneUrl)])
    case Ok(c) =>
      if c.host != config.host then
        Decision(Ok(Denied(HostMismatch(c.host))), [ParseUrl(cloneUrl)])
      else
        match FindIdentity(user.identities, config.id)
        case None => Decision(Ok(Denied(NotLinked)), [ParseUrl(cloneUrl)])
        case Some(identity) =>
          var repo := c.Params();
          var probe := Query("GET", Api.WebhooksPath(repo), None);
          match listWebhooks(user, repo)
          case Err(e) => Decision(Ok(Denied(ProbeFailed(e))), [ParseUrl(cloneUrl), probe])
          case Ok(_) =>
            var path := PermissionsPath(repo);
            var calls := [ParseUrl(cloneUrl), probe, Query("GET", path, None)];
            match listPermissions(user, path)
            case Err(e) => Decision(Err(e), calls)
            case Ok(permissions) =>
              var own := if permissions.values.Some? then FindPermission(permissions.values.value, identity.authName) else None;
              if own == Some(REPO_ADMIN) then Decision(Ok(Authorized), calls)
              else Decision(Ok(Denied(NotRepoAdmin(own))), calls)
  }

  /** `canInstallAutomatedPrebuilds(user, cloneUrl)`: the decision collapsed to a boolean. */
  function CanInstallAutomatedPrebuilds(
    config: AuthProviderParams, user: User, cloneUrl: string,
    parse: Parser, listWebhooks: WebhookLister, listPermissions: PermissionLister): (r: Result<bool, string>)
    ensures r == Ok(true) <==> MayInstall(config, user, cloneUrl, parse, listWebhooks, listPermissions)
    ensures r.Err? <==>
      || parse(user, cloneUrl).Err?
      || (PastGuards(config, user, cloneUrl, parse, listWebhooks) &&
          listPermissions(user, PermissionsPath(parse(user, cloneUrl).value.Params())).Err?)
    // Each error is the one its source throws.
    ensures parse(user, cloneUrl).Err? ==> r == Err(parse(user, cloneUrl).error)
    ensures PastGuards(config, user, cloneUrl, parse, listWebhooks) ==>
      var permissions := listPermissions(user, PermissionsPath(parse(user, cloneUrl).value.Params()));
      permissions.Err? ==> r == Err(permissions.error)
  {
    match Authorize(config, user, cloneUrl, parse, listWebhooks, listPermissions).verdict
    case Err(e) => Err(e)
    case Ok(a) => Ok(a == Authorized)
  }

  // ---------------------------------------------------------------------------
  // installAutomatedPrebuilds

  /** `hook.url && hook.url.indexOf(hookUrl) !== -1`. */
  predicate Matches(hook: Api.Webhook, hookUrl: string) {
    hook.url != "" && IndexOf(hook.url, hookUrl) != -1
  }

  /** `hooks.some(hook => Matches(hook, hookUrl))`. */
  function AnyMatches(hooks: seq<Api.Webhook>, hookUrl: string): (b: bool)
    ensures b <==> exists i :: 0 <= i < |hooks| && Matches(hooks[i], hookUrl)
  {
    if hooks == [] then false
    else if Matches(hooks[0], hookUrl) then true
    else
      var b := AnyMatches(hooks[1..], hookUrl);
      assert forall i :: 1 <= i < |hooks| ==> hooks[i] == hooks[1..][i - 1];
      b
  }

  /** The listing already holds the prebuild webhook. */
  predicate AlreadyInstalled(values: Option<seq<Api.Webhook>>, hookUrl: string) {
    values.Some? && AnyMatches(values.value, hookUrl)
  }

  /** The webhook posted for `userId` with the token value `tokenValue`: an
      active hook named `tada` on pushed refs, with the fixed secret, calling
      back the platform's URL with `?token={userId}|{tokenValue}`. */
  function PrebuildWebhook(hookUrl: string, userId: string, tokenValue: string): (w: Api.WebhookParams)
    ensures w.name == "tada" && w.events == ["repo:refs_changed"] && w.active
    ensures w.configuration.secret == "foobar123-secret"
    ensures hookUrl <= w.url && w.url[|hookUrl|..] == "?token=" + userId + "|" + tokenValue
  {
    Api.WebhookParams(
      "tada",
      ["repo:refs_changed"],
      Api.WebhookConfiguration("foobar123-secret"),
      hookUrl + "?token=" + userId + "|" + tokenValue,
      true)
  }

  /** The webhook the remote stores for posted parameters. */
  function Stored(w: Api.WebhookParams, id: int): Api.Webhook {
    Api.Webhook(id, w.name, 0, 0, w.events, w.configuration, w.url, w.active)
  }

  /** A stored prebuild webhook is recognised by the check that guards installation. */
  lemma PrebuildWebhookIsRecognised(hookUrl: string, userId: string, tokenValue: string, id: int)
    ensures Matches(Stored(PrebuildWebhook(hookUrl, userId, tokenValue), id), hookUrl)
  {
    PrefixIsFoundFirst(PrebuildWebhook(hookUrl, userId, tokenValue).url, hookUrl);
  }

  /** A listing that ends with the stored prebuild webhook counts as installed. */
  lemma InstalledOnceAppended(hooks: seq<Api.Webhook>, hookUrl: string, userId: string, tokenValue: string, id: int)
    ensures AlreadyInstalled(Some(hooks + [Stored(PrebuildWebhook(hookUrl, userId, tokenValue), id)]), hookUrl)
  {
    var all := hooks + [Stored(PrebuildWebhook(hookUrl, userId, tokenValue), id)];
    PrebuildWebhookIsRecognised(hookUrl, userId, tokenValue, id);
    assert Matches(all[|all| - 1], hookUrl);
  }

  /** A token issued by the token service. */
  datatype TokenEntry = TokenEntry(userId: string, scope: string, subject: string, value: string)

  /** The service, with the remote state its collaborators change: the
      webhooks of each repository on the Bitbucket Server instance and the
      tokens issued, plus the trace of calls made. */
  class BitbucketServerService {
    const authProviderConfig: AuthProviderParams
    const contextParser: Parser
    /** `getHookUrl()`, the platform's callback URL. */
    const hookUrl: string
    /** `JSON.stringify` of a webhook body. */
    const stringify: Api.WebhookParams -> string
    /** The error message a collaborator call fails with, if it fails, given
        the call and its position in the trace: the same call may succeed once
        and fail later (a timeout, a server error). */
    const failure: (nat, Call) -> Option<string>

    var webhooks: map<Api.RepoParams, seq<Api.Webhook>>
    var nextWebhookId: int
    var tokens: seq<TokenEntry>
    var calls: seq<Call>

    constructor (
      authProviderConfig: AuthProviderParams, contextParser: Parser, hookUrl: string,
      stringify: Api.WebhookParams -> string, failure: (nat, Call) -> Option<string>,
      webhooks: map<Api.RepoParams, seq<Api.Webhook>>)
      ensures this.authProviderConfig == authProviderConfig && this.contextParser == contextParser
      ensures this.hookUrl == hookUrl && this.stringify == stringify && this.failure == failure
      ensures this.webhooks == webhooks && tokens == [] && calls == []
    {
      this.authProviderConfig := authProviderConfig;
      this.contextParser := contextParser;
      this.hookUrl := hookUrl;
      this.stringify := stringify;
      this.failure := failure;
      this.webhooks := webhooks;
      nextWebhookId := 1;
      tokens, calls := [], [];
    }

    /** The webhooks of `repo` on the remote. */
    function HooksOf(repo: Api.RepoParams): seq<Api.Webhook>
      reads this
    {
      if repo in webhooks then webhooks[repo] else []
    }

    /** Neither the webhooks nor the tokens changed. */
    twostate predicate RemoteUnchanged()
      reads this
    {
      webhooks == old(webhooks) && nextWebhookId == old(nextWebhookId) && tokens == old(tokens)
    }

    /** `api.getWebhooks`: the repository's webhooks as one page. */
    method GetWebhooks(user: User, repo: Api.RepoParams) returns (r: Result<Api.Paginated<Api.Webhook>, string>)
      modifies this`calls
      ensures var call := Query("GET", Api.WebhooksPath(repo), None);
        && calls == old(calls) + [call]
        && r == if failure(|old(calls)|, call).Some? then Err(failure(|old(calls)|, call).value)
                else Ok(Api.Paginated(None, None, None, None, Some(HooksOf(repo))))
    {
      var call := Query("GET", Api.WebhooksPath(repo), None);
      var failed := failure(|calls|, call);
      calls := calls + [call];
      if failed.Some? {
        return Err(failed.value);
      }
      r := Ok(Api.Paginated(None, None, None, None, Some(HooksOf(repo))));
    }

    /** `tokenService.createGitpodToken`; the new token's value is random and given. */
    method CreateGitpodToken(user: User, scope: string, subject: string, value: string) returns (r: Result<TokenEntry, string>)
      modifies this`calls, this`tokens
      ensures var call := CreateToken(user.id, scope, subject);
        && calls == old(calls) + [call]
        && if failure(|old(calls)|, call).Some? then r == Err(failure(|old(calls)|, call).value) && tokens == old(tokens)
           else r == Ok(TokenEntry(user.id, scope, subject, value)) && tokens == old(tokens) + [r.value]
    {
      var call := CreateToken(user.id, scope, subject);
      var failed := failure(|calls|, call);
      calls := calls + [call];
      if failed.Some? {
        return Err(failed.value);
      }
      var entry := TokenEntry(user.id, scope, subject, value);
      tokens := tokens + [entry];
      r := Ok(entry);
    }

    /** `api.setWebhook`: the remote stores the posted webhook under a new id. */
    method SetWebhook(user: User, repo: Api.RepoParams, webhook: Api.WebhookParams) returns (r: Result<(), string>)
      modifies this`calls, this`webhooks, this`nextWebhookId
      ensures var call := Query("POST", Api.WebhooksPath(repo), Some(stringify(webhook)));
        && calls == old(calls) + [call]
        && if failure(|old(calls)|, call).Some? then
             r == Err(failure(|old(calls)|, call).value) && webhooks == old(webhooks) && nextWebhookId == old(nextWebhookId)
           else
             && r == Ok(())
             && webhooks == old(webhooks)[repo := old(HooksOf(repo)) + [Stored(webhook, old(nextWebhookId))]]
             && nextWebhookId == old(nextWebhookId) + 1
    {
      var call := Query("POST", Api.WebhooksPath(repo), Some(stringify(webhook)));
      var failed := failure(|calls|, call);
      calls := calls + [call];
      if failed.Some? {
        return Err(failed.value);
      }
      webhooks := webhooks[repo := HooksOf(repo) + [Stored(webhook, nextWebhookId)]];
      nextWebhookId := nextWebhookId + 1;
      r := Ok(());
    }

    /** `installAutomatedPrebuilds(user, cloneUrl)`; `tokenValue` is the value
        the token service would generate. */
    method InstallAutomatedPrebuilds(user: User, cloneUrl: string, tokenValue: string) returns (r: Result<(), string>)
      modifies this
      // A parser error escapes before any other call.
      ensures contextParser(user, cloneUrl).Err? ==>
        r == Err(contextParser(user, cloneUrl).error) && calls == old(calls) + [ParseUrl(cloneUrl)] && RemoteUnchanged()
      ensures contextParser(user, cloneUrl).Ok? ==>
        var repo := contextParser(user, cloneUrl).value.Params();
        var list := Query("GET", Api.WebhooksPath(repo), None);
        var issue := CreateToken(user.id, PREBUILD_TOKEN_SCOPE, cloneUrl);
        var hook := PrebuildWebhook(hookUrl, user.id, tokenValue);
        var post := Query("POST", Api.WebhooksPath(repo), Some(stringify(hook)));
        var n := |old(calls)|;
        // The listing comes first; its error escapes.
        if failure(n + 1, list).Some? then
          r == Err(failure(n + 1, list).value) && calls == old(calls) + [ParseUrl(cloneUrl), list] && RemoteUnchanged()
        // A matching webhook means nothing is created.
        else if AlreadyInstalled(Some(old(HooksOf(repo))), hookUrl) then
          r == Ok(()) && calls == old(calls) + [ParseUrl(cloneUrl), list] && RemoteUnchanged()
        // Otherwise one token, then one webhook.
        else if failure(n + 2, issue).Some? then
          r == Err(failure(n + 2, issue).value) && calls == old(calls) + [ParseUrl(cloneUrl), list, issue] && RemoteUnchanged()
        else
          && tokens == old(tokens) + [TokenEntry(user.id, PREBUILD_TOKEN_SCOPE, cloneUrl, tokenValue)]
          && calls == old(calls) + [ParseUrl(cloneUrl), list, issue, post]
          && if failure(n + 3, post).Some? then
               r == Err(failure(n + 3, post).value) && webhooks == old(webhooks) && nextWebhookId == old(nextWebhookId)
             else
               && r == Ok(())
               && webhooks == old(webhooks)[repo := old(HooksOf(repo)) + [Stored(hook, old(nextWebhookId))]]
               && nextWebhookId == old(nextWebhookId) + 1
      // After a successful installation the repository holds a matching webhook.
      ensures r.Ok? ==>
        contextParser(user, cloneUrl).Ok? && AlreadyInstalled(Some(HooksOf(contextParser(user, cloneUrl).value.Params())), hookUrl)
    {
      calls := calls + [ParseUrl(cloneUrl)];
      var parsed := contextParser(user, cloneUrl);
      if parsed.Err? {
        return Err(parsed.error);
      }
      r := InstallOn(user, cloneUrl, parsed.value.Params(), tokenValue);
    }

    /** The steps of `installAutomatedPrebuilds` once the clone URL has been
        parsed to `repo`: list, then (unless a webhook matches) one token and
        one webhook. */
    method InstallOn(user: User, cloneUrl: string, repo: Api.RepoParams, tokenValue: string) returns (r: Result<(), string>)
      modifies this
      ensures
        var list := Query("GET", Api.WebhooksPath(repo), None);
        var issue := CreateToken(user.id, PREBUILD_TOKEN_SCOPE, cloneUrl);
        var hook := PrebuildWebhook(hookUrl, user.id, tokenValue);
        var post := Query("POST", Api.WebhooksPath(repo), Some(stringify(hook)));
        var n := |old(calls)|;
        if failure(n, list).Some? then
          r == Err(failure(n, list).value) && calls == old(calls) + [list] && RemoteUnchanged()
        else if AlreadyInstalled(Some(old(HooksOf(repo))), hookUrl) then
          r == Ok(()) && calls == old(calls) + [list] && RemoteUnchanged()
        else if failure(n + 1, issue).Some? then
          r == Err(failure(n + 1, issue).value) && calls == old(calls) + [list, issue] && RemoteUnchanged()
        else
          && tokens == old(tokens) + [TokenEntry(user.id, PREBUILD_TOKEN_SCOPE, cloneUrl, tokenValue)]
          && calls == old(calls) + [list, issue, post]
          && if failure(n + 2, post).Some? then
               r == Err(failure(n + 2, post).value) && webhooks == old(webhooks) && nextWebhookId == old(nextWebhookId)
             else
               && r == Ok(())
               && webhooks == old(webhooks)[repo := old(HooksOf(repo)) + [Stored(hook, old(nextWebhookId))]]
               && nextWebhookId == old(nextWebhookId) + 1
      ensures r.Ok? ==> AlreadyInstalled(Some(HooksOf(repo)), hookUrl)
    {
      ghost var n := |calls|;
      var existing := GetWebhooks(user, repo);
      if existing.Err? {
        return Err(existing.error);
      }
      if AlreadyInstalled(existing.value.values, hookUrl) {
        return Ok(());
      }
      assert |calls| == n + 1;
      var tokenEntry := CreateGitpodToken(user, PREBUILD_TOKEN_SCOPE, cloneUrl, tokenValue);
      if tokenEntry.Err? {
        return Err(tokenEntry.error);
      }
      var hook := PrebuildWebhook(hookUrl, user.id, tokenEntry.value.value);
      assert |calls| == n + 2;
      var result := SetWebhook(user, repo, hook);
      if result.Err? {
        return Err(result.error);
      }
      InstalledOnceAppended(old(HooksOf(repo)), hookUrl, user.id, tokenValue, old(nextWebhookId));
      r := Ok(());
    }

    /** Installing again once the repository holds a matching webhook, as it
        does after any successful installation: the call only parses and lists
        the webhooks, changes nothing on the remote, and succeeds unless that
        listing fails. */
    method InstallAgain(user: User, cloneUrl: string, tokenValue: string) returns (r: Result<(), string>)
      requires contextParser(user, cloneUrl).Ok?
      requires AlreadyInstalled(Some(HooksOf(contextParser(user, cloneUrl).value.Params())), hookUrl)
      modifies this
      ensures var list := Query("GET", Api.WebhooksPath(contextParser(user, cloneUrl).value.Params()), None);
        && calls == old(calls) + [ParseUrl(cloneUrl), list]
        && RemoteUnchanged()
        && r == if failure(|old(calls)| + 1, list).Some? then Err(failure(|old(calls)| + 1, list).value) else Ok(())
    {
      r := InstallAutomatedPrebuilds(user, cloneUrl, tokenValue);
    }
  }
}
