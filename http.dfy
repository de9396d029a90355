/** What a request can come back with, as far as the scrapers look at it. */
module Http {
  import opened JsonModel

  /** The body as `response.json()` sees it. */
  datatype Body = Parsed(json: Json) | Malformed  // `Malformed`: `json.JSONDecodeError`

  datatype PageOutcome =
    | Raised                              // the request raised
    | NoResponse                          // `fetch_page_data` returned `None`
    | Responded(status: int, body: Body)

  /** `isinstance(response, Exception) or response is None or response.status_code != 200` */
  predicate Failed(o: PageOutcome) {
    o.Raised? || o.NoResponse? || o.status != 200
  }
}
