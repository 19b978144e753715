/** The shapes of the JSON objects the extension receives from the session service.
    Every view declares its own copy of these types; the model shares one.
    A field that the views only ever read through `x || fallback` or a truthiness
    test is a plain `string` here, with "" standing for both "absent" and "empty",
    which JavaScript treats alike. A field that the views guard with `?.` is an
    `Option`, because there absence is observable. */
module Api {

  datatype Option<+T> = None | Some(value: T) {
    function GetOr(default: T): (r: T) {
      match this
      case Some(v) => v
      case None => default
    }
  }

  /** The fixed endpoint every request goes to. */
  const ApiBaseUrl: string := "https://jules.googleapis.com/v1alpha"

  datatype GitHubBranch = GitHubBranch(displayName: string)

  datatype GitHubRepo = GitHubRepo(
    owner: string,
    repo: string,
    defaultBranch: Option<GitHubBranch>,
    branches: Option<seq<GitHubBranch>>)

  /** `name` is the opaque resource id (for example "sources/42") that sessions refer to. */
  datatype Source = Source(name: string, id: string, githubRepo: Option<GitHubRepo>)

  /** The body of `GET /sources`; the page token is received and never used. */
  datatype SourcesResponse = SourcesResponse(sources: Option<seq<Source>>)

  /** `source` names the session's source; it is absent when the service leaves it out. */
  datatype SourceContext = SourceContext(source: Option<string>)

  datatype Session = Session(
    name: string,
    id: string,
    title: string,
    state: string,
    url: string,
    prompt: string,
    sourceContext: Option<SourceContext>)

  /** The body of `GET /sessions`; the page token is received and never used. */
  datatype SessionsResponse = SessionsResponse(sessions: Option<seq<Session>>)
}
