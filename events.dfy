/** The shape of go-github's decoded push webhook, reduced to the fields the
    handlers read. Every field is a Go pointer, so every field is optional. */
module GitHubEvents {
  import opened Wrappers

  /** The repository owner (`github.User`); only its name is read. */
  datatype User = User(name: Option<string>)

  /** `github.PushEventRepository`: its name and owner. */
  datatype PushEventRepository = PushEventRepository(name: Option<string>, owner: Option<User>)

  /** `github.PushEvent`. `pushID` is read by the older handler only. */
  datatype PushEvent = PushEvent(
    ref: Option<string>,
    before: Option<string>,
    after: Option<string>,
    repo: Option<PushEventRepository>,
    pushID: Option<int>)

  /** What `github.ParseWebHook` hands back: a push event, or an event of some
      other Go type, named as `%T` prints it (for example `*github.CheckRunEvent`). */
  datatype ParsedEvent = Push(event: PushEvent) | Other(goType: string)
}
