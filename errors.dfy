/** The exceptions the profile loader can raise, as values. */
module Errors {

  datatype LoadError =
      /** httpx could not reach the server at all (DNS, connection, TLS, timeout). */
    | TransportError(url: string)
      /** `httpx.HTTPError` raised by `fetch` for a status other than 200; the URL is the one
          actually requested, i.e. after proxy substitution. */
    | HttpError(status: int, url: string, body: string)
      /** rdflib could not parse the text under the given format. */
    | ParseError(format: string)
      /** `RuntimeError("Failed to parse data from <url>. <cause>")` raised by `load_owl_imports`. */
    | ImportFailed(url: string, cause: LoadError)
      /** Raised by the model only: the descriptor recursion of `load_profiles` ran out of fuel. */
    | BudgetExhausted

  /** The URLs named by a chain of `ImportFailed` wrappers, outermost first. */
  function ImportChain(e: LoadError): seq<string>
  {
    if e.ImportFailed? then [e.url] + ImportChain(e.cause) else []
  }
}
