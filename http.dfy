/** Pieces of an HTTP response that the administration handlers write. */
module Http {
  import opened Records

  /** One entry of the `errors` list of an error response. */
  datatype ApiError = ApiError(id: string, status: int, title: string, detail: string)

  /** What a middleware does with a request: hand it to the next handler, or answer with an error. */
  datatype Gate = Next | Reject(error: ApiError)

  /** What a response carries after its headers. */
  datatype Payload = NoPayload | Errors(error: ApiError) | PageList(pages: seq<Page>) | OnePage(page: Page)

  datatype Response = Response(status: int, headers: map<string, string>, payload: Payload)

  /** A header gate that lets through only one exact value: no parameters, no case folding, no lists. */
  function ExactMatch(header: string, expected: string, rejection: ApiError): (g: Gate)
    ensures g.Next? <==> header == expected
    ensures g.Reject? ==> g.error == rejection
  {
    if header != expected then Reject(rejection) else Next
  }

  /** `WriteError`: the error's status, the API media type, and the error alone in the body. */
  function ErrorResponse(error: ApiError, mediaType: string): (r: Response)
    ensures r.status == error.status && r.payload == Errors(error)
    ensures r.headers == map["Content-Type" := mediaType]
  {
    Response(error.status, map["Content-Type" := mediaType], Errors(error))
  }
}
