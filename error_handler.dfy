/**
 * The boundary translator: every error a handler throws is classified into an
 * HTTP status and an error body. The `instanceof` chain becomes a match on
 * the kind of error; the `switch` on Prisma's code becomes a table.
 */
module ErrorHandler {
  import opened Wrappers
  import opened Text
  import Schemas

  datatype Error =
    | ZodError(issues: seq<Schemas.Issue>)
    | PrismaKnownRequest(code: string, message: string)
    | PrismaValidation(message: string)
    | PrismaInitialization(message: string)
    | PrismaRustPanic(message: string)
    | AppError(message: string, statusCode: int)
    | Unexpected

  /** One entry of a validation error's `errors` list; `issue` carries the zod message. */
  datatype FieldError = FieldError(fieldName: Option<string>, issue: Schemas.Issue)

  /** `{status: 'error', message, errors?, details?}`; the constant `status` is left implicit. */
  datatype ErrorBody = ErrorBody(message: string, errors: Option<seq<FieldError>>, details: Option<string>)

  datatype ErrorResponse = ErrorResponse(status: int, body: ErrorBody)

  /** The Prisma codes the handler names, with their messages. */
  const KnownCodeMessages: map<string, string> := map[
    "P2000" := "Input value is too long for the database field.",
    "P2001" := "The requested record does not exist.",
    "P2002" := "Unique constraint failed: Duplicate entry detected.",
    "P2003" := "Foreign key constraint failed: Invalid reference.",
    "P2004" := "A database constraint was violated.",
    "P2005" := "Invalid value provided for a database field.",
    "P2006" := "Mismatched data type for a field.",
    "P2007" := "Validation failed on a database field.",
    "P2008" := "Failed to parse the query.",
    "P2009" := "Query parameter validation failed.",
    "P2010" := "Raw database error occurred.",
    "P2011" := "Null constraint violation: Required field is missing.",
    "P2012" := "Missing required fields in the database.",
    "P2013" := "Missing arguments in the database query.",
    "P2014" := "Related record deletion restricted: Cannot delete this record.",
    "P2015" := "Record not found.",
    "P2016" := "Query validation error: Invalid query structure.",
    "P2017" := "Invalid relation between records.",
    "P2018" := "Invalid record in the database.",
    "P2019" := "Input value conflicts with database constraints.",
    "P2020" := "Invalid value for an enum field.",
    "P2021" := "Database table not found.",
    "P2022" := "Column not found in the database.",
    "P2023" := "Inconsistent data found.",
    "P2024" := "Database transaction failed.",
    "P2025" := "Record to delete does not exist.",
    "P2026" := "Database query timeout."
  ]

  /** The codes that answer 404 instead of 400. */
  const NotFoundCodes: set<string> := {"P2001", "P2015", "P2025"}

  /** `fieldName`: the issue path joined with dots, absent for an empty path. */
  function FieldName(path: seq<string>): Option<string> {
    if |path| == 0 then None else Some(Join(path, '.'))
  }

  function ClassifyKnownRequest(code: string, message: string): ErrorResponse {
    var status := if code in NotFoundCodes then 404 else 400;
    var text := if code in KnownCodeMessages then KnownCodeMessages[code] else "Unexpected database error: " + message;
    ErrorResponse(status, ErrorBody(text, None, None))
  }

  /**
   * The `instanceof` chain: validation errors answer 400 with one entry per
   * issue, store errors 400 or 404, connection and engine failures 500,
   * application errors their own status, and anything else 500.
   */
  function HandleError(err: Error): (r: ErrorResponse)
    ensures r.status in {400, 404, 500} || (err.AppError? && r.status == err.statusCode)
    ensures !err.AppError? ==>
      (r.status == 500 <==> err.PrismaInitialization? || err.PrismaRustPanic? || err.Unexpected?)
    ensures r.body.errors.Some? <==> err.ZodError?
    ensures r.body.details.Some? <==> err.PrismaValidation? || err.PrismaInitialization? || err.PrismaRustPanic?
  {
    match err
    case ZodError(issues) =>
      ErrorResponse(400, ErrorBody("Validation error",
        Some(seq(|issues|, i requires 0 <= i < |issues| => FieldError(FieldName(issues[i].path), issues[i]))), None))
    case PrismaKnownRequest(code, message) => ClassifyKnownRequest(code, message)
    case PrismaValidation(message) =>
      ErrorResponse(400, ErrorBody("Invalid data format provided.", None, Some(message)))
    case PrismaInitialization(message) =>
      ErrorResponse(500, ErrorBody("Database connection failed. Please check your database configuration.", None, Some(message)))
    case PrismaRustPanic(message) =>
      ErrorResponse(500, ErrorBody("Unexpected Prisma error. Try restarting the server.", None, Some(message)))
    case AppError(message, statusCode) => ErrorResponse(statusCode, ErrorBody(message, None, None))
    case Unexpected => ErrorResponse(500, ErrorBody("Internal server error", None, None))
  }

  /**
   * The error the store raises for a query argument of the wrong kind (NaN,
   * a negative skip); the store's own wording is not modelled.
   */
  function StoreRejectsArgument(): Error {
    PrismaValidation("invalid query argument")
  }

  /**
   * The error the store raises when the row to update or delete does not
   * exist (code P2025); the store's own wording is not modelled.
   */
  function RecordNotFound(): Error {
    PrismaKnownRequest("P2025", "record not found")
  }

  /** A validation error answers 400 with one entry per issue, in order, naming the issue's path. */
  lemma ZodErrorResponse(issues: seq<Schemas.Issue>)
    ensures HandleError(ZodError(issues)).status == 400
    ensures HandleError(ZodError(issues)).body.errors.Some?
    ensures |HandleError(ZodError(issues)).body.errors.value| == |issues|
    ensures forall i :: 0 <= i < |issues| ==>
      && HandleError(ZodError(issues)).body.errors.value[i].issue == issues[i]
      && (HandleError(ZodError(issues)).body.errors.value[i].fieldName.None? <==> issues[i].path == [])
  {
  }

  /** The field name gives the issue's path back when no segment holds a dot. */
  lemma FieldNameRecoversPath(path: seq<string>)
    requires |path| >= 1
    requires forall i :: 0 <= i < |path| ==> '.' !in path[i]
    ensures FieldName(path).Some? && Split(FieldName(path).value, '.') == path
  {
    SplitJoin(path, '.');
  }

  /** Known-request errors answer 404 exactly for P2001, P2015 and P2025, and 400 otherwise. */
  lemma KnownRequestStatus(code: string, message: string)
    ensures HandleError(PrismaKnownRequest(code, message)).status == 404 <==> code in {"P2001", "P2015", "P2025"}
    ensures HandleError(PrismaKnownRequest(code, message)).status in {400, 404}
  {
  }

  /** An unnamed code answers 400 with the original message after a fixed prefix. */
  lemma UnknownCodeResponse(code: string, message: string)
    requires code !in KnownCodeMessages
    ensures HandleError(PrismaKnownRequest(code, message)) ==
      ErrorResponse(400, ErrorBody("Unexpected database error: " + message, None, None))
  {
  }

  /** A store validation error answers 400 "Invalid data format provided." with the error's text as details. */
  lemma ValidationErrorResponse(message: string)
    ensures HandleError(PrismaValidation(message)) ==
      ErrorResponse(400, ErrorBody("Invalid data format provided.", None, Some(message)))
  {
  }

  /** The store's refusal of a query argument reaches the client as 400. */
  lemma StoreRejectsArgumentIs400()
    ensures StoreRejectsArgument().PrismaValidation?
    ensures HandleError(StoreRejectsArgument()).status == 400
    ensures HandleError(StoreRejectsArgument()).body.message == "Invalid data format provided."
  {
  }

  /** The store's missing-row error reaches the client as 404 "Record to delete does not exist.". */
  lemma RecordNotFoundIs404()
    ensures HandleError(RecordNotFound()) == ErrorResponse(404, ErrorBody("Record to delete does not exist.", None, None))
  {
  }

  /** A failed connection to the store answers 500, with the error's text as details. */
  lemma InitializationErrorResponse(message: string)
    ensures HandleError(PrismaInitialization(message)) ==
      ErrorResponse(500, ErrorBody("Database connection failed. Please check your database configuration.", None, Some(message)))
  {
  }

  /** A crash of the store's engine answers 500, with the error's text as details. */
  lemma RustPanicResponse(message: string)
    ensures HandleError(PrismaRustPanic(message)) ==
      ErrorResponse(500, ErrorBody("Unexpected Prisma error. Try restarting the server.", None, Some(message)))
  {
  }

  /** Any other error answers 500 "Internal server error" and reveals nothing of the error. */
  lemma UnexpectedErrorResponse()
    ensures HandleError(Unexpected) == ErrorResponse(500, ErrorBody("Internal server error", None, None))
  {
  }

  /** An application error answers with its own status and message. */
  lemma AppErrorResponse(message: string, statusCode: int)
    ensures HandleError(AppError(message, statusCode)).status == statusCode
    ensures HandleError(AppError(message, statusCode)).body.message == message
  {
  }
}

/**
 * What a handler hands back to Express: an envelope it sent itself, or an
 * error it threw, which the error handler then turns into a response.
 */
module Replies {
  import opened Wrappers
  import opened Envelopes
  import opened ErrorHandler

  datatype Reply<T> = Sent(status: int, body: Envelope<T>) | Thrown(error: Error)

  /** `res.status(200).json(formResponse(200, data))`. */
  function Ok<T>(data: T): Reply<T> {
    Sent(200, FormResponse(200, data))
  }

  /** `throw new AppError(message, status)`. */
  function Fail<T>(message: string, status: int): Reply<T> {
    Thrown(AppError(message, status))
  }

  /** A service call: its value is sent with 200, its error propagates. */
  function FromResult<T>(r: Result<T, Error>): Reply<T> {
    match r
    case Success(v) => Ok(v)
    case Failure(e) => Thrown(e)
  }

  /** The HTTP status the client finally sees. */
  function StatusOf<T>(r: Reply<T>): int {
    match r
    case Sent(status, _) => status
    case Thrown(e) => HandleError(e).status
  }
}
