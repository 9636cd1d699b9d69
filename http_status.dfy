/** The fixed table from numeric HTTP status to the flag and message sent in every envelope. */
module HttpStatus {

  datatype StatusEntry = StatusEntry(code: int, flag: string, message: string)

  /** The codes the table knows. */
  const Codes: set<int> := {200, 204, 400, 401, 403, 404, 412, 498, 500}

  function Table(): (table: map<int, StatusEntry>)
    ensures table.Keys == Codes
    ensures forall k :: k in table ==> table[k].code == k
  {
    map[
      200 := StatusEntry(200, "OK", "Process Successful"),
      204 := StatusEntry(204, "Not created", "Could not create"),
      400 := StatusEntry(400, "Bad Request", "The Server could not process the request due to bad syntax"),
      401 := StatusEntry(401, "Unauthorized", "Unauthorized access"),
      403 := StatusEntry(403, "Forbidden", "forbidden"),
      404 := StatusEntry(404, "Not found", "Not found"),
      412 := StatusEntry(412, "Pre-condition failed", "Pre-condition failed"),
      498 := StatusEntry(498, "Invalid Token", "Invalid Token"),
      500 := StatusEntry(500, "Internal Server error", "An Internal Server error occured")
    ]
  }

  /** The session-expiry code and the success code carry the texts clients look for. */
  lemma DistinguishedEntries()
    ensures Table()[498].flag == "Invalid Token" && Table()[498].message == "Invalid Token"
    ensures Table()[200].flag == "OK" && Table()[200].message == "Process Successful"
  {
  }
}

/**
 * The success envelope `{status_code, flag, message, data}`, built two ways:
 * `formResponse` tolerates a code missing from the table, `Helpers.sendResponse`
 * does not (it dereferences the table entry) and lets the caller override the message.
 */
module Envelopes {
  import opened Wrappers
  import HttpStatus

  datatype Envelope<T> = Envelope(statusCode: int, flag: Option<string>, message: Option<string>, data: T)

  function FormResponse<T>(code: int, data: T): (e: Envelope<T>)
    ensures e.statusCode == code && e.data == data
    ensures code in HttpStatus.Codes ==>
      e.flag == Some(HttpStatus.Table()[code].flag) && e.message == Some(HttpStatus.Table()[code].message)
    ensures code !in HttpStatus.Codes ==> e.flag.None? && e.message.None?
  {
    var table := HttpStatus.Table();
    Envelope(code,
      if code in table then Some(table[code].flag) else None,
      if code in table then Some(table[code].message) else None,
      data)
  }

  /**
   * `Helpers.sendResponse(code, payload, res, message)`. `None` stands for the
   * TypeError thrown when the table has no entry for `code`.
   */
  function SendResponse<T>(code: int, payload: T, message: string): (r: Option<Envelope<T>>)
    ensures r.None? <==> code !in HttpStatus.Codes
    ensures r.Some? ==> r.value.statusCode == code && r.value.data == payload
    ensures r.Some? ==> r.value.flag == Some(HttpStatus.Table()[code].flag)
    ensures r.Some? && message != "" ==> r.value.message == Some(message)
    ensures r.Some? && message == "" ==> r.value.message == Some(HttpStatus.Table()[code].message)
  {
    var table := HttpStatus.Table();
    if code !in table then None
    else Some(Envelope(code, Some(table[code].flag), Some(if message != "" then message else table[code].message), payload))
  }

  /** With the default (empty) message, both builders produce the same envelope. */
  lemma SendResponseAgreesWithFormResponse<T>(code: int, payload: T)
    requires code in HttpStatus.Codes
    ensures SendResponse(code, payload, "") == Some(FormResponse(code, payload))
  {
  }
}
