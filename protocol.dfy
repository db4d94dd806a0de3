/** The platform-side records the integration receives from its callers, its
    auth-provider configuration, and the trace of collaborator calls that the
    model uses to say which calls an operation makes and in what order. */
module Protocol {
  import opened Wrappers

  /** A linked account at one auth provider. */
  datatype Identity = Identity(authProviderId: string, authId: string, authName: string)

  /** The platform user on whose behalf requests are made. */
  datatype User = User(id: string, identities: seq<Identity>)

  /** A repository as the platform describes it; `webUrl` is optional. */
  datatype Repository = Repository(host: string, owner: string, name: string, cloneUrl: string, webUrl: Option<string>)

  /** A commit of a repository. The record type demands a revision, but
      callers hand in objects without one, so it is optional here too. */
  datatype Commit = Commit(repository: Repository, revision: Option<string>)

  /** The configuration of the Bitbucket Server auth provider this
      integration instance serves. */
  datatype AuthProviderParams = AuthProviderParams(id: string, host: string)

  /** JavaScript truthiness of an optional string: present and not empty. */
  predicate Truthy(s: Option<string>) {
    s.Some? && s.value != ""
  }

  /** One call into a collaborator, as recorded in a trace. */
  datatype Call =
    | ParseUrl(url: string)
      // BitbucketServerContextParser.parseURL
    | Query(httpMethod: string, path: string, body: Option<string>)
      // BitbucketServerApi.runQuery, with the endpoint path relative to the REST base
    | FetchContent(path: string)
      // BitbucketServerApi.fetchContent
    | CreateToken(userId: string, scope: string, subject: string)
      // TokenService.createGitpodToken
}
