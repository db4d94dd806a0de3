/** The interface of the context parser. Its rules are not part of this
    model: a parser is any function from a user and a clone or web URL to
    coordinates or an error message. */
module ContextParser {
  import opened Wrappers
  import Protocol
  import opened BitbucketServer

  /** Where a repository lives on a Bitbucket Server instance. */
  datatype Coordinates = Coordinates(host: string, resourceKind: ResourceKind, owner: string, repoName: string)
  {
    /** The parameters the API client's path builders take. */
    function Params(): RepoParams {
      RepoParams(resourceKind, owner, repoName)
    }
  }

  /** `parseURL(user, url)`: coordinates, or the message of the error it throws. */
  type Parser = (Protocol.User, string) -> Result<Coordinates, string>
}
