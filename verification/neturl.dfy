/**
 * Go's net/url, which the core calls but does not define. Its two parsers
 * enter the model as functions supplied by the caller: None is a parse error.
 */
module NetUrl {

  import opened Wrappers

  /** The parts of a parsed URL the core looks at. */
  datatype Url = Url(scheme: string, host: string, path: string)

  datatype UrlParser = UrlParser(
    parseRequestURI: string -> Option<Url>,  // url.ParseRequestURI
    parse: string -> Option<Url>)            // url.Parse

  /** Why an address was rejected: the request-URI parse or the plain parse failed. */
  datatype UrlError = RequestURIError(address: string) | ParseError(address: string)
}
