/** The SDK's two plain records: a resolved deep link and the configuration it is set up with. */
module LinkTypes {

  /** A deep link as handed to the application: the text of the link, its query parameters
      and whether it came from the backend (deferred) or from a navigation intent. */
  datatype DeepLinkData = DeepLinkData(url: string, params: map<string, string>, isDeferred: bool)

  /** The configuration given once to `configure`: the domain whose links are claimed, the base
      URL of the backend and whether pending links are checked on every app start. */
  datatype LinkIOConfig = LinkIOConfig(domain: string, backendURL: string, autoCheckPendingLinks: bool)
}
