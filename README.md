# Bitbucket Server integration: a Dafny model

This project models the core of the platform's Bitbucket Server integration:

- **API client** (`BitbucketServerApi`). Each call asks the token helper for a token with no scopes. It then sends one request to `https://{host}/rest/api/1.0{path}` with `Authorization: Bearer {token}`. A response that is not ok becomes the error `"{status} / {statusText}"`. Every call that got a token writes one debug line, whose outcome is `OK` or `error {message}`. Thin wrappers build the endpoint paths `/{projects|users}/{owner}/repos/{slug}[/commits|/default-branch|/webhooks]`.
- **File content provider** (`BitbucketServerFileProvider`). It reads a repository file through `/…/raw/{path}`. Without a revision or a web URL the result is absent. A fetch error also gives an absent result. A parser error is not caught.
- **Prebuild webhook service** (`BitbucketServerService`). `canInstallAutomatedPrebuilds` is a chain of guards that ends in a permission check: the user must hold exactly `REPO_ADMIN`. `installAutomatedPrebuilds` first lists the repository's webhooks. If none matches the callback URL, it issues one `prebuilds` token and then posts one webhook.

The collaborators whose code is not part of the model are given as functions or as constant fields:

- the context parser (`ContextParser.Parser`);
- the API client as the file provider and the service see it: the file provider's fetch is the free function `BitbucketServerFileProvider.ContentFetcher`, and the service's webhook and permission listings are functions or recorded calls. They are not `BitbucketServerApi`'s methods, so what those methods promise (the token request, the error text, the log line) is not carried over to `GetFileContent`, `Authorize` or the service class;
- the token helper (`BitbucketServer.TokenHelper`);
- the HTTP transport (`BitbucketServer.Transport`);
- JSON decoding and `JSON.stringify`;
- the token service's random token value;
- the remote's refusals (`failure`), as a function of the call and its position in the trace, so a call that succeeded once may fail the next time.

The contracts say which collaborator calls are made, in what order, and which are not made at all. The file-provider functions and `Authorize` return a trace of `Protocol.Call`s with their result, and the service class keeps such a trace in its field `calls`. The API client instead keeps three logs in fields: the token requests (`tokenRequests`), the HTTP requests handed to the transport (`sent`) and the debug lines written (`log`).

Modules: `Wrappers` (Option/Result), `Strings` (the JavaScript string behaviour relied on: `${n}` for a number and `indexOf`; plus a split on `/` that the model itself uses to read endpoint paths back, which the integration never does), `Protocol` (platform-side records and the call trace), `ContextParser` (the parser's interface), `BitbucketServer` (the API file), `BitbucketServerFileProvider`, `Prebuilds` (the service).

In three places the code behaves differently from what the names and comments of these operations suggest. The model follows the code:

- Reading file content is meant to be best effort, with failures giving an absent result. But the parser call sits outside the `try`, so a parse error propagates (`GetFileContent`).
- One would expect `canInstallAutomatedPrebuilds` to answer `false` on any failure. In the code only the webhook probe's failure becomes `false`. A parser error and a failing permission query propagate (`Authorize`, `CanInstallAutomatedPrebuilds`).
- `getFileContent` takes a commit with a revision, but the raw path never mentions the revision, so the content is not read at that revision (`RevisionDoesNotSelectContent`).

## Model

| member | source | states |
|---|---|---|
| `Strings.NatToString` | components/server/src/bitbucket-server/bitbucket-server-api.ts:34 | the status is rendered as a non-empty string of decimal digits with no leading zero (it starts with `0` exactly when the status is 0), and it has one digit exactly when the status is below 10 |
| `Strings.DigitsValueOfNatToString` | components/server/src/bitbucket-server/bitbucket-server-api.ts:34 | reading the rendered digits back gives the status again |
| `Strings.IndexOf` | components/server/ee/src/prebuilds/bitbucket-server-service.ts:62 | `indexOf` gives -1 exactly when the text does not occur; otherwise it gives the first position where it occurs, counted in characters |
| `Strings.PrefixIsFoundFirst` | components/server/ee/src/prebuilds/bitbucket-server-service.ts:62 | a prefix of a string is found at position 0, so `indexOf` does not give -1 for it |
| `BitbucketServer.KindName` | components/server/src/bitbucket-server/bitbucket-server-api.ts:75 | a resource kind is rendered as `projects` or `users`, a single path segment that reads back as the same kind |
| `BitbucketServer.DecodeRepoPrefix` | components/server/src/bitbucket-server/bitbucket-server-api.ts:76 | the shared prefix `/{kind}/{owner}/repos/{slug}`, followed by further segments, decodes back to the same repository and those segments (when owner and slug contain no `/`) |
| `BitbucketServer.RepositoryPath` | components/server/src/bitbucket-server/bitbucket-server-api.ts:75-77 | the repository path reads back as that repository, with nothing after the slug (when owner and slug contain no `/`) |
| `BitbucketServer.CommitsPath` | components/server/src/bitbucket-server/bitbucket-server-api.ts:79-81 | the commits path reads back as the repository followed by the one segment `commits`, whatever `q` is |
| `BitbucketServer.CommitsPathIgnoresQuery` | components/server/src/bitbucket-server/bitbucket-server-api.ts:79-80 | the path is the same with any `q` or none, so `q.limit` is never used |
| `BitbucketServer.DefaultBranchPath` | components/server/src/bitbucket-server/bitbucket-server-api.ts:83-86 | the default-branch path reads back as the repository followed by `default-branch` |
| `BitbucketServer.WebhooksPath` | components/server/src/bitbucket-server/bitbucket-server-api.ts:88-90 | the webhooks path reads back as the repository followed by `webhooks` |
| `BitbucketServer.BaseUrl` | components/server/src/bitbucket-server/bitbucket-server-api.ts:71-73 | the base URL is `https://`, then the configured host, then `/rest/api/1.0`, and the host can be read back from it |
| `BitbucketServer.QueryRequest` | components/server/src/bitbucket-server/bitbucket-server-api.ts:18-31 | the request URL is exactly `"https://" + host + "/rest/api/1.0" + urlPath` and the header is `"Bearer " + token`; the method is `GET` when none is given, otherwise the given one; the body is passed through |
| `BitbucketServer.ContentRequest` | components/server/src/bitbucket-server/bitbucket-server-api.ts:46-57 | `fetchContent` sends the same URL and bearer header as `runQuery`, always with `GET` and no body |
| `BitbucketServer.ErrorMessageCarriesStatus` | components/server/src/bitbucket-server/bitbucket-server-api.ts:33-35 | the message `"{status} / {statusText}"` determines both the status and the status text |
| `BitbucketServer.Checked` | components/server/src/bitbucket-server/bitbucket-server-api.ts:33-37 | the result succeeds exactly when a response arrived and is ok, and then it is the body; a response that is not ok gives exactly the error `"{status} / {statusText}"`, from which status and status text can be read back, and never the body; a thrown error keeps its message |
| `BitbucketServer.Decoded` | components/server/src/bitbucket-server/bitbucket-server-api.ts:36-37 | an error from the response is passed on and decoding is not attempted; an ok body gives exactly what decoding it gives, the decoded value or the decoding error |
| `BitbucketServer.Outcome` | components/server/src/bitbucket-server/bitbucket-server-api.ts:38-43 | the outcome word is `OK` exactly on success, and `"error " + message` on every failure |
| `BitbucketServer.LogLine` | components/server/src/bitbucket-server/bitbucket-server-api.ts:42 | the debug line is `BBS GET `, then the full URL, then ` – `, then the outcome, whatever the HTTP method; its parts can be read back by position |
| `BitbucketServer.BitbucketServerApi.RunQuery` | components/server/src/bitbucket-server/bitbucket-server-api.ts:18-44 | one token request with the empty scope list; if the helper throws, its error and no request and no log line; otherwise exactly one request (as `QueryRequest` builds it), a result that is the checked and decoded response, and exactly one log line with the URL and the outcome, emitted on success and on failure alike |
| `BitbucketServer.BitbucketServerApi.FetchContent` | components/server/src/bitbucket-server/bitbucket-server-api.ts:46-69 | the same as `RunQuery`, with a `GET` request and no body; the result is the raw text, unconverted, or the error |
| `BitbucketServer.BitbucketServerApi.GetRepository` | components/server/src/bitbucket-server/bitbucket-server-api.ts:75-77 | a `runQuery` of the repository path, with the default method and no body |
| `BitbucketServer.BitbucketServerApi.GetCommits` | components/server/src/bitbucket-server/bitbucket-server-api.ts:79-81 | a `runQuery` of the commits path built without `q`, so the same request is sent whatever `q` is |
| `BitbucketServer.BitbucketServerApi.GetDefaultBranch` | components/server/src/bitbucket-server/bitbucket-server-api.ts:83-86 | a `runQuery` of the default-branch path |
| `BitbucketServer.BitbucketServerApi.GetWebhooks` | components/server/src/bitbucket-server/bitbucket-server-api.ts:88-90 | a `runQuery` of the webhooks path |
| `BitbucketServer.BitbucketServerApi.SetWebhook` | components/server/src/bitbucket-server/bitbucket-server-api.ts:92-95 | a `runQuery` of the same webhooks path, with method `POST` and the serialised webhook as body |
| `BitbucketServerFileProvider.RawPath` | components/server/src/bitbucket-server/bitbucket-server-file-provider.ts:48 | the fetched path reads back as the parsed repository, then `raw`, then the segments of the file path; nothing else (in particular no revision) goes into it |
| `BitbucketServerFileProvider.GetFileContent` | components/server/src/bitbucket-server/bitbucket-server-file-provider.ts:40-53 | without a truthy revision or web URL: absent, and neither the parser nor the API is called; otherwise the web URL is parsed first and a parser error escapes with no further call; with coordinates, exactly one fetch of the raw path follows, and its text comes back unchanged while its error becomes absent; only a parser error ever escapes |
| `BitbucketServerFileProvider.GetGitpodFileContent` | components/server/src/bitbucket-server/bitbucket-server-file-provider.ts:19-21 | the lookup of `.gitpod.yml` |
| `BitbucketServerFileProvider.GetLastChangeRevision` | components/server/src/bitbucket-server/bitbucket-server-file-provider.ts:23-38 | `"f00"` for every argument |
| `BitbucketServerFileProvider.RevisionDoesNotSelectContent` | components/server/src/bitbucket-server/bitbucket-server-file-provider.ts:45-48 | two commits of the same repository with any two present revisions give the same lookup |
| `Prebuilds.PermissionsPath` | components/server/ee/src/prebuilds/bitbucket-server-service.ts:46 | the permissions path reads back as the repository followed by `permissions/users` |
| `Prebuilds.FindIdentity` | components/server/ee/src/prebuilds/bitbucket-server-service.ts:33 | absent exactly when no identity belongs to the provider; otherwise the first identity that does |
| `Prebuilds.FindPermission` | components/server/ee/src/prebuilds/bitbucket-server-service.ts:47 | absent exactly when no entry is for the user name; otherwise the permission of the first entry that is |
| `Prebuilds.Authorize` | components/server/ee/src/prebuilds/bitbucket-server-service.ts:27-54 | the URL is parsed first and a parser error escapes; a host mismatch and a missing identity are both refusals with no API call; a failed webhook probe is a refusal and the permissions are then not queried; past the guards the probe comes before the permission query, and the permission query's error escapes unchanged; the verdict is `Authorized` exactly when `MayInstall` holds, that is when the first entry for the first linked identity's name has the permission `REPO_ADMIN` (a missing `values`, no entry, or any other permission refuses) |
| `Prebuilds.CanInstallAutomatedPrebuilds` | components/server/ee/src/prebuilds/bitbucket-server-service.ts:27-54 | `true` exactly when `MayInstall` holds; an error exactly when the parser fails, or when the guards pass and the permission query fails, and then it is that parser's or that query's own error; `false` in every other case |
| `Prebuilds.AnyMatches` | components/server/ee/src/prebuilds/bitbucket-server-service.ts:61-62 | true exactly when some listed webhook has a non-empty URL that contains the callback URL |
| `Prebuilds.PrebuildWebhook` | components/server/ee/src/prebuilds/bitbucket-server-service.ts:67-77 | the posted webhook is named `tada`, listens to `repo:refs_changed`, is active, has the fixed secret `foobar123-secret`, and its URL is the callback URL followed by `?token={userId}\|{token}` |
| `Prebuilds.PrebuildWebhookIsRecognised` | components/server/ee/src/prebuilds/bitbucket-server-service.ts:61-62 | once stored, the posted webhook (URL `hookUrl + "?token=" + user.id + "\|" + token`) passes the "already installed" check |
| `Prebuilds.BitbucketServerService.GetWebhooks` | components/server/ee/src/prebuilds/bitbucket-server-service.ts:59 | records the `GET` of the webhooks path; gives the refusal's error, or the repository's stored webhooks as one page |
| `Prebuilds.BitbucketServerService.CreateGitpodToken` | components/server/ee/src/prebuilds/bitbucket-server-service.ts:66 | records the token call; on success exactly one token entry is issued, for the user, scope and subject |
| `Prebuilds.BitbucketServerService.SetWebhook` | components/server/ee/src/prebuilds/bitbucket-server-service.ts:67-77 | records the `POST` of the serialised webhook to the webhooks path; unless it is refused, the remote appends exactly that webhook to the repository's list |
| `Prebuilds.BitbucketServerService.InstallAutomatedPrebuilds` | components/server/ee/src/prebuilds/bitbucket-server-service.ts:56-96 | the calls go in the order parse, list webhooks, create token, post webhook; each error escapes and stops the sequence. If a listed webhook matches, the result is ok with no token and no webhook created. Otherwise exactly one `prebuilds` token is issued for the clone URL, then exactly one webhook is posted (`active`, events `["repo:refs_changed"]`, URL `hookUrl + "?token=" + user.id + "\|" + token`). After any success the repository holds a matching webhook. A failed post leaves the issued token behind |
| `Prebuilds.BitbucketServerService.InstallOn` | components/server/ee/src/prebuilds/bitbucket-server-service.ts:59-77 | the steps after a successful parse: the listing's error escapes; a matching webhook means nothing is created; otherwise one `prebuilds` token and then one posted webhook, with each error escaping; after a success the repository holds a matching webhook |
| `Prebuilds.BitbucketServerService.InstallAgain` | components/server/ee/src/prebuilds/bitbucket-server-service.ts:56-77 | idempotence: on a repository that already holds a matching webhook, which every successful installation leaves behind, `installAutomatedPrebuilds` makes exactly two calls, parse and list; it leaves the webhooks, the id counter and the tokens as they were; it succeeds unless that listing fails, and then gives the listing's error |

## Left out

- HTTP transport: `node-fetch`, the 10 s timeout, the `Content-Type` header and the response decoding are not modelled. The transport is the function `Transport`, JSON decoding is a `decode` parameter, and `response.text()` is the response's `body`.
- `Response.ok` is not tied to the status range 200-299. The response is an abstract `(ok, status, statusText, body)`.
- The token helper (`getTokenWithScopes`) and the token service (`createGitpodToken`) are not modelled. They are a function and a recorded call. The token service's random value is a parameter.
- `BitbucketServerContextParser.parseURL` is not part of this model. It is the function type `ContextParser.Parser`, with no rules of its own.
- `getHookUrl` builds a URL with a foreign URL library. The callback URL is the fixed field `hookUrl`.
- `JSON.stringify` of the webhook body is the field `stringify`. `JSON.stringify` in log messages is not modelled.
- Logging: `console.error`, `console.log` and the refusal's `console.debug` are not modelled. Only the API client's debug outcome line is (`log`).
- Dependency injection is not modelled. The collaborators are constructor arguments or parameters.
- Concurrency is not modelled. Two simultaneous installations could both see no webhook and both create one; the model runs calls one after another.
- Pagination: only the first page's `values` is read. `Prebuilds.BitbucketServerService.GetWebhooks` returns a repository's whole webhook list as that one page. So the "a matching webhook means nothing is created" branch of `Prebuilds.BitbucketServerService.InstallAutomatedPrebuilds` (and of `InstallOn`), and the idempotence of `Prebuilds.BitbucketServerService.InstallAgain`, hold only when all of a repository's webhooks fit on the first page. With more webhooks the code may not see an installed hook and may post another one. The `Paginated` fields `isLastPage`, `limit`, `size` and `start` are left empty, and the open index signature `[k: string]: any` is not modelled.
- `Prebuilds.Stored`: the remote's `createdDate` and `updatedDate` are not modelled and are set to 0. The remote's id is a counter.
- The listing's `events` and `configuration` are typed `any` in the source. Here they are a list of strings and a record holding the secret.
- `Prebuilds.Authorize`: the webhook probe and the permission listing are given as two functions of their arguments. The model does not relate them to the webhook state that the service class keeps for installation.
- The fixed webhook secret and name are copied as they are. Generating a per-installation secret is not part of the code.
- The commented-out code in the service (lines 79-94) and in the file provider (lines 29-36) is not modelled.
- The file provider's test file is not modelled. It is a network-dependent harness.
- The path builders' read-back contracts assume that the owner and the slug contain no `/`. The path builders themselves accept any strings.
- `Strings.IndexOf`: positions are counted in Unicode characters, while JavaScript counts UTF-16 code units. The two differ for text outside the Basic Multilingual Plane. The integration only compares the result with -1, and that comparison is the same in both.
- `Prebuilds.BitbucketServerService.SetWebhook`: a failed post is modelled as a refusal that stores nothing (`webhooks` and the id counter stay as they were), in `SetWebhook` and in the post-failure branches of `InstallAutomatedPrebuilds` and `InstallOn`. In the code the post can fail after the server has stored the hook, on the 10 s timeout or when the reply does not decode; the model does not capture that case.
