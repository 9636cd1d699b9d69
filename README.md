# ohaalo backend core, modelled in Dafny

ohaalo is a kanban board service: users register or log in, receive JSON web
tokens, and then create boards, lists on boards and labels on boards. Each
board has memberships with roles ADMIN, EDITOR or VIEWER. This project models
the request handlers of that service and the parts they share:

- `AuthService` (`auth.dfy`): registration, password login and Google login.
  Each issues an access and a refresh token that carry `{email, jti}`. The
  `jti` is stored as the user's single live session identifier.
- `UserMiddleware` (`middleware.dfy`): `verifyToken`. A request passes only
  with a bearer token that verifies, names an email and a `jti`, and whose
  `jti` is the stored one. Otherwise it is refused with 401 or 498.
- `BoardController`, `BoardServices` (`board_*.dfy`): create a board (with
  the creator's ADMIN membership), list or look up boards, update, delete,
  toggle a like, and ask whether a board is liked.
- `ListController`, `ListServices` (`list_*.dfy`): create a list at the next
  position on its board, rename it, delete it, and list lists.
- `LabelController`, `LabelServices` (`label_*.dfy`): create, edit, look up
  and delete labels.
- `Schemas` (`schemas.dfy`): the zod schemas for boards, lists and labels, and
  the register and login validation. For each schema, the list of issues it
  reports is empty exactly when the stated field conditions hold.
- `ErrorHandler`, `Replies` (`error_handler.dfy`): how a thrown error becomes
  an HTTP status and body.
- `HttpStatus`, `Envelopes` (`http_status.dfy`): the status table,
  `formResponse` and `Helpers.sendResponse`.
- `Store` (`store.dfy`): the relational store as tables of rows with
  auto-increment counters.
- `Listing` (`listing.dfy`): the paging, filtering and newest-first ordering
  that the three listing services share.
- `Text`, `Values` (`text.dfy`): JavaScript's `split` and `join`, its
  truthiness, and `Number(...)`.

Each handler that changes the store has two forms:

- a pure function `XStep(t, ...)` on the store value `Store.Tables`, which
  returns the new tables and the reply;
- a method `X(db, ...)` that updates the fields of a `Store.Db` object in
  place, proved equal to the function.

The lemmas are stated on the functions. A reply is either an envelope the
handler sent itself (`Sent`) or an error it threw (`Thrown`). A thrown error
reaches the client through `ErrorHandler.HandleError`.

Several things are parameters of the model rather than modelled:

- the outside primitives: hashing, password comparison, signing and verifying
  tokens, the case-insensitive substring test, the URL and e-mail checks, the
  clock, and the identifier generator;
- the order in which the store returns labels, and the order in which it
  scans membership rows, which the source leaves unspecified;
- the requester id that `verifyToken` leaves on the request.

Label routes do not run `verifyToken`, so their requester is an `Option`.

## Model

| member | source | states |
|---|---|---|
| HttpStatus.Table | src/utils/httpStatusCode.ts:1-48 | the table has exactly the nine codes 200, 204, 400, 401, 403, 404, 412, 498 and 500, each entry under its own code |
| HttpStatus.DistinguishedEntries | src/utils/httpStatusCode.ts:2-6 | 200 is "OK"/"Process Successful"; 498 is "Invalid Token" for both flag and message |
| Envelopes.FormResponse | src/utils/formResponse.ts:3-10 | the envelope carries the code and the data; flag and message come from the table for a known code and are undefined for any other code |
| Envelopes.SendResponse | src/utils/helper.ts:5-18 | for a code outside the table there is no response (the lookup throws); otherwise the code, payload and table flag, with the given message, or the table's message when the given one is empty |
| Envelopes.SendResponseAgreesWithFormResponse | src/utils/helper.ts:11-16 | with no message, sendResponse builds the same envelope as formResponse |
| Schemas.BoardCreateAccepts | src/schemas/board.schema.ts:4-13 | board creation passes iff title is a string of 1 to 25 characters, visibility is PRIVATE or PUBLIC, backgroundImg is a non-empty URL, and there is no other key |
| Schemas.BoardUpdateAccepts | src/schemas/board.schema.ts:15-35 | a board update passes iff each of title (1 to 25 characters), visibility and backgroundImg (URL) is absent or valid, and there is no other key |
| Schemas.BoardUpdateRejectsArchived | src/schemas/board.schema.ts:15-35 | a body holding `archived` always draws an unrecognized-keys issue |
| Schemas.ListCreateAccepts | src/schemas/list.schema.ts:3-9 | list creation passes iff listName has 3 to 20 characters and boardId is a number at least 1; other keys are allowed |
| Schemas.ListUpdateAccepts | src/schemas/list.schema.ts:11-19 | a list update passes iff listName is absent or 3 to 20 characters, listId is absent or a number at least 1, and there is no other key |
| Schemas.LabelCreateAccepts | src/schemas/label.schema.ts:3-10 | label creation passes iff labelName has 3 to 20 characters, color is non-empty and boardId is a number at least 1 |
| Schemas.LabelUpdateAccepts | src/schemas/label.schema.ts:12-23 | a label update passes iff id is a number at least 1, each of labelName, color and boardId is absent or valid, and there is no other key |
| Schemas.RegisterAccepts | src/validation/auth.validation.ts:3-13 | registration passes iff username has 3 to 255 characters, email is an e-mail, both passwords have 6 to 255 characters, and they are equal |
| Schemas.RegisterMismatchIssue | src/validation/auth.validation.ts:10-13 | differing passwords draw the issue "Passwords do not match" on path confirmPassword |
| Schemas.LoginAccepts | src/validation/auth.validation.ts:15-18 | login passes iff email is an e-mail and password has 6 to 255 characters |
| ErrorHandler.HandleError | src/middleware/errorHandler.ts:6-168 | every error answers 400, 404 or 500, except an application error, which answers its own status; apart from application errors, 500 is answered exactly for a connection failure, an engine panic or an unrecognised error; the body lists field errors exactly for a validation error, and carries details exactly for the three store-side errors |
| ErrorHandler.ValidationErrorResponse | src/middleware/errorHandler.ts:126-133 | a store validation error answers 400 "Invalid data format provided." with the error's message as details |
| ErrorHandler.StoreRejectsArgumentIs400 | src/middleware/errorHandler.ts:126-133 | the store's refusal of a query argument is a store validation error and answers 400 "Invalid data format provided." |
| ErrorHandler.RecordNotFoundIs404 | src/middleware/errorHandler.ts:108-111 | the store's missing-row error answers 404 "Record to delete does not exist." |
| ErrorHandler.InitializationErrorResponse | src/middleware/errorHandler.ts:135-143 | a failed connection answers 500 "Database connection failed. Please check your database configuration." with details |
| ErrorHandler.RustPanicResponse | src/middleware/errorHandler.ts:145-152 | an engine panic answers 500 "Unexpected Prisma error. Try restarting the server." with details |
| ErrorHandler.UnexpectedErrorResponse | src/middleware/errorHandler.ts:162-167 | any other error answers 500 "Internal server error", with neither field errors nor details |
| ErrorHandler.ZodErrorResponse | src/middleware/errorHandler.ts:13-22 | a validation error answers 400 with one entry per issue, in order; the entry carries the issue's message and has no field name exactly when the path is empty |
| ErrorHandler.FieldNameRecoversPath | src/middleware/errorHandler.ts:18 | when no path segment holds a dot, splitting the field name at dots gives the path back |
| ErrorHandler.KnownRequestStatus | src/middleware/errorHandler.ts:25-124 | a known-request error answers 404 iff its code is P2001, P2015 or P2025, and 400 otherwise |
| ErrorHandler.UnknownCodeResponse | src/middleware/errorHandler.ts:115-117 | an unlisted code answers 400 with "Unexpected database error: " followed by the error's message |
| ErrorHandler.AppErrorResponse | src/middleware/errorHandler.ts:155-160 | an application error answers with its own status and message |
| Store.BoardAt | src/utils/board.utils.ts:1-7 | a board is found iff the id is a stored board id, and it is that row |
| Store.ListAt | src/utils/list.utils.ts:1-7 | a list is found iff the id is a stored list id, and it is that row |
| Store.LabelAt | src/controllers/label.controller.ts:101-106 | a label is found iff the id is a stored label id, and it is that row |
| Store.RoleOf | src/services/list.services.ts:10-12 | a role is found iff the (board, user) membership row exists, and it is that row's role |
| Store.FirstRole | src/controllers/label.controller.ts:26-31 | with a user id, the same as the unique lookup; without one, it is the role of the first membership row of the board in the table's scan order, and over a scan of exactly the stored rows a role is found iff the board has any member |
| Store.FirstRoleDependsOnScan | src/controllers/label.controller.ts:26-31 | on a board with a VIEWER and an ADMIN, the anonymous lookup finds either, depending only on the scan order |
| Store.NextPosition | src/services/list.services.ts:25-34 | the next position is one past the highest position on the board, hence above every one of them, and 1 on a board without lists |
| Listing.FilteredModeIsUnpaged | src/services/board.services.ts:13-14 | in lookup mode, skip is 0 and there is no take |
| Listing.BrowseModeWindow | src/services/board.services.ts:13-14 | in browse mode, skip is page times limit when page is truthy (else 0), and take is the limit when it is truthy (else 10) |
| Listing.Bounds | src/services/board.services.ts:41-42 | the store accepts the window iff skip is a number at least 0 and take is absent or a number at least 0; the accepted values are those numbers |
| Listing.NumberCondition | src/services/board.services.ts:16-18 | an id condition is applied iff the id is a truthy number, and it is that number |
| Listing.SearchCondition | src/services/board.services.ts:20-29 | a search condition is applied iff the search is a non-empty string, and it is that string |
| Listing.ByRecency | src/services/board.services.ts:33-40 | the ordering holds every key and only those keys, each later one strictly older (updatedAt descending, then id descending) |
| Listing.ByRecencyDistinct | src/services/board.services.ts:33-40 | the ordering names no row twice |
| Listing.Slice | src/services/board.services.ts:41-42 | the window holds min(take, rows left after skip) rows, none when skip passes the end and all the rest with no take; row i of the window is row skip + i of the ordering; with no take and no skip it is the whole ordering |
| Listing.ConsecutivePages | src/services/board.services.ts:13-14 | page p followed by page p + 1 is the double-size window that starts at page p |
| AuthService.RegisterStep | src/services/auth.services.ts:9-45 | an existing email is refused (400) before the passwords are compared (400 on mismatch); otherwise exactly one user is added, with the next id, the hashed password (10 rounds), the new jti and the refresh token; both tokens are signed over {email, jti}; only the user table changes |
| AuthService.LoginStep | src/services/auth.services.ts:47-72 | an unknown email gives 400 and a wrong password 401; otherwise only that user's jwtId and refreshToken change, to the new jti and the refresh token issued |
| AuthService.GoogleLoginStep | src/services/auth.services.ts:74-112 | an existing user gets the new jti and refresh token; a new one is created with the hashed placeholder password and the profile image; either way the tokens are issued for {email, jti} |
| AuthService.RegisterKeepsValid | src/services/auth.services.ts:26-34 | registration keeps the store well formed (unique user ids, ids below the counter) |
| AuthService.LoginKeepsValid | src/services/auth.services.ts:58-61 | login keeps the store well formed |
| AuthService.GoogleLoginKeepsValid | src/services/auth.services.ts:83-94 | the upsert keeps the store well formed |
| AuthService.SecondLoginReplacesFirst | src/services/auth.services.ts:54-61 | a second login succeeds, and leaves the store as if the first had not happened |
| AuthService.Register | src/services/auth.services.ts:9-45 | the in-place store ends, and the result is, as RegisterStep says |
| AuthService.Login | src/services/auth.services.ts:47-72 | the in-place store ends, and the result is, as LoginStep says |
| AuthService.GoogleLogin | src/services/auth.services.ts:74-112 | the in-place store ends, and the result is, as GoogleLoginStep says |
| UserMiddleware.SendErrorResponse | src/middleware/user.middleware.ts:55-57 | a refusal with that status, whose envelope carries the message as data and the table's flag and message |
| UserMiddleware.BearerToken | src/middleware/user.middleware.ts:22-26 | there is no token iff the header is absent or does not start with "Bearer "; a token holds no space |
| UserMiddleware.BearerTokenIsSecondPiece | src/middleware/user.middleware.ts:26 | the token of "Bearer " + t is t, for any t without a space |
| UserMiddleware.Authenticate | src/middleware/user.middleware.ts:19-52 | the request passes iff the bearer token verifies, carries a non-empty email and a truthy jti, and the jti is the string stored as that user's jwtId; it then carries that user's id; every refusal is 401 or 498 |
| UserMiddleware.Refusals | src/middleware/user.middleware.ts:22-51 | no bearer token: 401 "No token provided"; expired: 498; invalid: 401; a falsy email or jti: 401; unknown user or a jti other than the stored one: 498 |
| UserMiddleware.NonStringJtiIsStale | src/middleware/user.middleware.ts:31-41 | a truthy jti that is not a string passes the claim check and is refused with 498, since it never equals a stored jwtId |
| UserMiddleware.OneLiveSession | src/middleware/user.middleware.ts:35-45 | two requests that pass for the same user carry the same jti |
| UserMiddleware.LoginRevokesEarlierToken | src/middleware/user.middleware.ts:40-42 | after a login with a fresh jti, a token that passed before for that email is refused with 498 |
| UserMiddleware.LoginTokenIsAccepted | src/middleware/user.middleware.ts:28-45 | the access token a login issues passes the middleware, for that user's id |
| UserMiddleware.VerifyToken | src/middleware/user.middleware.ts:19-52 | when the request passes, `next` is called once and `req.id` is set; otherwise nothing is called, `req.id` is unchanged and the refusal is sent |
| BoardServices.OrderedMatches | src/services/board.services.ts:31-43 | the matching boards, each once (a strict order), newest first |
| BoardServices.GetBoards | src/services/board.services.ts:9-54 | it fails with the store's argument error iff the window is refused; it gives `{id, name, value}` options iff in lookup mode |
| BoardServices.BrowseResult | src/services/board.services.ts:41-53 | in browse mode, the rows are the window at skip of the newest-first matches, at most take of them |
| BoardServices.LookupResult | src/services/board.services.ts:45-52 | in lookup mode, every matching board appears, newest first, as `{id, name: title, value: id}` |
| BoardServices.UpdateBoardStep | src/services/board.services.ts:56-73 | 403 unless a board with that id has that owner; otherwise only that row changes, each supplied field takes the new value, the others keep theirs, and updatedAt is the clock's time (the store's stamp; see Left out) |
| BoardServices.UpdateBoardKeepsValid | src/services/board.services.ts:65-70 | the update keeps the store well formed |
| BoardServices.UpdateBoardConfined | src/services/board.services.ts:56-73 | an edit without `archived` keeps every board's flag, and changes only the named board, and only for its owner |
| BoardServices.UpdateBoardIdempotent | src/services/board.services.ts:65-70 | applying the same update again changes nothing more |
| BoardServices.UpdateBoard | src/services/board.services.ts:56-73 | the in-place store ends, and the result is, as UpdateBoardStep says |
| BoardController.CreateBoardStep | src/controllers/board.controller.ts:14-42 | invalid input throws the validation error and changes nothing; otherwise one board with the next id, owned by the requester and unarchived, plus the requester's ADMIN membership on it |
| BoardController.CreateBoardAtomic | src/controllers/board.controller.ts:18-37 | the transaction adds a board and its membership together or adds neither, and keeps the store well formed |
| BoardController.CreateBoard | src/controllers/board.controller.ts:14-42 | the in-place store ends, and the reply is, as CreateBoardStep says |
| BoardController.BoardQueryFields | src/controllers/board.controller.ts:45-53 | the id is given iff the query id is truthy; page defaults to 0 and limit to 10 when falsy; lookup mode iff isFiltered is truthy |
| BoardController.GetAllBoards | src/controllers/board.controller.ts:44-60 | the reply is sent iff the query's page window is one the store accepts; then it carries the service's page of boards with 200; otherwise the store's refusal (400) propagates |
| BoardController.GetAllBoardsDefaults | src/controllers/board.controller.ts:47-53 | without page, limit and isFiltered the window is 10 boards from the first, and the call succeeds |
| BoardController.IsFilteredFalseStillFilters | src/controllers/board.controller.ts:52 | `isFiltered=false` is a non-empty string, so it selects lookup mode |
| BoardController.UpdateBoardStep | src/controllers/board.controller.ts:62-102 | empty body 412, missing id 412, then validation; past validation a NaN id is refused by the store (400) and a board the requester does not own gives 403 "Board not found or unauthorized"; it succeeds iff the id names a board the requester owns; a refusal changes nothing |
| BoardController.UpdateNeverArchives | src/controllers/board.controller.ts:72-80 | no update changes any board's `archived` flag, and only the named board of its owner may change |
| BoardController.UpdateBoard | src/controllers/board.controller.ts:62-102 | the in-place store ends, and the reply is, as UpdateBoardStep says, with the write made by the service method |
| BoardController.DeleteBoardStep | src/controllers/board.controller.ts:104-122 | a NaN id is answered 400 "Invalid Board ID" directly; 0 throws 400; it succeeds iff the board exists, and then removes exactly that board row |
| BoardController.DeleteMissingBoardIs404 | src/controllers/board.controller.ts:114-118 | deleting a board that does not exist answers 404 |
| BoardController.DeleteBoardKeepsValid | src/controllers/board.controller.ts:114-118 | the delete keeps the store well formed |
| BoardController.DeleteBoard | src/controllers/board.controller.ts:104-122 | the in-place store ends, and the reply is, as DeleteBoardStep says |
| BoardController.LikeBoardStep | src/controllers/board.controller.ts:124-162 | a falsy id is 400; without a membership on an existing board, 400; otherwise the like is removed if present ("Unliked") or added ("Liked"), and nothing else changes |
| BoardController.LikeTwiceRestores | src/controllers/board.controller.ts:143-161 | liking twice gives the original store back |
| BoardController.LikeMessagesAlternate | src/controllers/board.controller.ts:148-161 | a "Liked" reply is followed by an "Unliked" one, and the other way round |
| BoardController.LikeBoard | src/controllers/board.controller.ts:124-162 | the in-place store ends, and the reply is, as LikeBoardStep says |
| BoardController.IsBoardLikedByUser | src/controllers/board.controller.ts:164-190 | a falsy board id is 400, then a falsy user id is 400; it succeeds iff both name a board and a user, and `liked` is then whether that pair is liked |
| BoardController.LikeThenQuery | src/controllers/board.controller.ts:181-189 | after a like toggle, the liked query reports the opposite of what held before |
| ListServices.CreateListStep | src/services/list.services.ts:6-38 | missing board 404; no membership 403 naming user and board; VIEWER 400; otherwise one new list with the next id at the board's next position: one past its highest, 1 on an empty board |
| ListServices.CreateListAdvancesPosition | src/services/list.services.ts:24-35 | in a well-formed store each created list raises its board's next position by exactly one |
| ListServices.ListPositionsCountUp | src/services/list.services.ts:24-35 | three lists created on a board without lists get positions 1, 2 and 3 |
| ListServices.CreateListKeepsValid | src/services/list.services.ts:30-36 | the new id is unused, and the store stays well formed |
| ListServices.CreateList | src/services/list.services.ts:6-38 | the in-place store ends, and the result is, as CreateListStep says |
| ListServices.UpdateListStep | src/services/list.services.ts:40-76 | missing list 404; no membership on its board 403; VIEWER 400; otherwise only that row changes: the name if one is given, and updatedAt |
| ListServices.UpdateListKeepsValid | src/services/list.services.ts:66-73 | the rename keeps the store well formed |
| ListServices.UpdateListKeepsPlace | src/services/list.services.ts:66-73 | a rename keeps every list on its board at its position |
| ListServices.UpdateList | src/services/list.services.ts:40-76 | the in-place store ends, and the result is, as UpdateListStep says |
| ListServices.OrderedLists | src/services/list.services.ts:110-122 | the matching lists, each once, newest first |
| ListServices.GetLists | src/services/list.services.ts:78-125 | it fails with the store's argument error iff the window is refused |
| ListServices.GetListsAsWritten | src/services/list.services.ts:99-108 | as written, any non-empty search is refused by the store with a validation error; without one it answers as GetLists |
| ListServices.ListSearchRefusedAsWritten | src/services/list.services.ts:99-108 | the as-written listing differs from GetLists exactly when there is a search, and then answers 400 |
| ListServices.GetListsMatch | src/services/list.services.ts:89-122 | every list returned satisfies the query's id, board and search conditions |
| ListServices.GetListsResult | src/services/list.services.ts:89-122 | the rows are the window at skip of the newest-first matches, at most take of them, and all of them in lookup mode |
| ListController.CreateListStep | src/controllers/list.controller.ts:11-18 | invalid input throws the validation error; otherwise the service's result with the body's name and board id |
| ListController.CreateList | src/controllers/list.controller.ts:11-18 | the in-place store ends, and the reply is, as CreateListStep says, with the write made by the service method |
| ListController.UpdateListStep | src/controllers/list.controller.ts:21-44 | empty body 412; falsy id 400; input failing validation of {listName, listId} throws that validation error; valid input gives the service's result; a refusal changes nothing |
| ListController.UpdateListNegativeId | src/controllers/list.controller.ts:26-37 | a negative id passes the truthiness check but fails validation |
| ListController.UpdateListIgnoresOtherKeys | src/controllers/list.controller.ts:25-37 | keys besides listName do not change the outcome |
| ListController.UpdateList | src/controllers/list.controller.ts:21-44 | the in-place store ends, and the reply is, as UpdateListStep says |
| ListController.DeleteListStep | src/controllers/list.controller.ts:46-69 | falsy id 400; missing list 404; 403 without a membership on the board whose id equals the list id; otherwise exactly that list is removed |
| ListController.DeleteListConsultsBoardNumberedLikeList | src/controllers/list.controller.ts:53-58 | a VIEWER of the board numbered like the list deletes it, even with no membership on the list's own board |
| ListController.DeleteListKeepsValid | src/controllers/list.controller.ts:64 | the delete keeps the store well formed |
| ListController.DeleteList | src/controllers/list.controller.ts:46-69 | the in-place store ends, and the reply is, as DeleteListStep says |
| ListController.ListQueryFields | src/controllers/list.controller.ts:85-92 | id and boardId are given iff truthy in the query; page defaults to 0 and limit to 10; lookup mode iff isFiltered is truthy |
| ListController.GetLists | src/controllers/list.controller.ts:71-99 | a truthy board id that is NaN is refused by the store (400); one that names no board is 404; otherwise the reply is the service's result for the query's fields |
| ListController.GetListsStaysOnBoard | src/controllers/list.controller.ts:74-94 | with a board id, every list returned is on that board |
| LabelServices.MatchingInOrder | src/services/label.services.ts:19-41 | the matching labels in scan order: each stored and matching, every matching label in the order present, none twice |
| LabelServices.GetLabel | src/services/label.services.ts:4-44 | it fails with the store's argument error iff the window is refused |
| LabelServices.GetLabelAsWritten | src/services/label.services.ts:26-35 | as written, any non-empty search is refused by the store with a validation error; without one it answers as GetLabel |
| LabelServices.LabelSearchRefusedAsWritten | src/services/label.services.ts:26-35 | the as-written listing differs from GetLabel exactly when there is a search, and then answers 400 |
| LabelServices.GetLabelResult | src/services/label.services.ts:16-41 | at most take labels, each stored, matching and listed once; in lookup mode every matching label |
| LabelServices.ScanOrderExists | src/services/label.services.ts:37-41 | every store has a legal scan order |
| LabelController.CreateLabelStep | src/controllers/label.controller.ts:16-52 | invalid input throws the validation error; past validation a missing board gives 400 "BoardId is Invalid", and a membership that is missing or VIEWER gives 400 "User don't have access"; it succeeds iff the board exists and the membership found (for an absent requester, the first row of the board in the membership scan order) is not VIEWER; it then adds one label with the next id |
| LabelController.ViewerCannotCreateLabel | src/controllers/label.controller.ts:37-39 | a VIEWER's request answers 400 and changes nothing |
| LabelController.CreateLabelKeepsValid | src/controllers/label.controller.ts:41-47 | creation keeps the store well formed |
| LabelController.CreateLabel | src/controllers/label.controller.ts:16-52 | the in-place store ends, and the reply is, as CreateLabelStep says |
| LabelController.EditInput | src/controllers/label.controller.ts:69-74 | the validated input holds only labelName, color, boardId and id, each as in the body |
| LabelController.EditLabelStep | src/controllers/label.controller.ts:54-111 | empty body 412; falsy id 404; falsy boardId 404; validation; then a missing board 400 "BoardId is Invalid", no List with the label's id 400 "ListId is Invalid", no writing membership 400 "User don't have access", and a missing label the store's P2025; it succeeds iff the board, a list with the label's id, a writing membership and the label all exist; only that label changes |
| LabelController.EditLabelNeedsListWithSameId | src/controllers/label.controller.ts:77-88 | without a List whose id equals the label id, the edit answers 400 "ListId is Invalid" |
| LabelController.EditLabelIgnoresOtherKeys | src/controllers/label.controller.ts:69-76 | keys outside {labelName, color, boardId, id} do not change the outcome |
| LabelController.EditLabelKeepsValid | src/controllers/label.controller.ts:101-106 | the edit keeps the store well formed |
| LabelController.EditLabel | src/controllers/label.controller.ts:54-111 | the in-place store ends, and the reply is, as EditLabelStep says |
| LabelController.LabelQueryFields | src/controllers/label.controller.ts:123-130 | id and boardId are the numbers of the body's values; page defaults to 0 and limit to 10; lookup mode iff isFiltered is truthy |
| LabelController.GetLabelByBoardId | src/controllers/label.controller.ts:113-137 | a falsy id is 400, then a falsy boardId is 400; past those, a truthy search that is not a string is refused by the store (400), and otherwise the reply is the service's result for the body's fields |
| LabelController.GetLabelByBoardIdNarrows | src/controllers/label.controller.ts:123-132 | with numeric ids, every label returned has that id and is on that board |
| LabelController.DeleteLabelByIdStep | src/controllers/label.controller.ts:139-172 | a missing id is 400; a NaN id is refused by the store; no List with that id 400 "ListId is Invalid"; no requester is refused by the store; no writing membership 400 "User don't have delete permision"; it succeeds iff a List with that id exists and the requester has a writing membership on its board; it then removes that List row |
| LabelController.DeleteLabelRemovesListOnly | src/controllers/label.controller.ts:161-165 | a successful delete leaves every label in place and removes exactly one list |
| LabelController.AnonymousDeleteFails | src/controllers/label.controller.ts:150-156 | without a requester, the delete throws and changes nothing |
| LabelController.DeleteLabelByIdKeepsValid | src/controllers/label.controller.ts:161-165 | the delete keeps the store well formed |
| LabelController.DeleteLabelById | src/controllers/label.controller.ts:139-172 | the in-place store ends, and the reply is, as DeleteLabelByIdStep says |

## Left out

- The network, Express routing, request parsing and response writing are not
  modelled. Each handler is a function from the store and the request's parts
  to the new store and the reply.
- Concurrency is not modelled. `Promise.all` lookups run in sequence, and
  every handler is one atomic step.
- bcrypt, JWT signing and verification, uuid generation, the clock and the
  case-insensitive substring test are parameters. Nothing is assumed about
  them beyond what each lemma states as a premise.
- zod's URL and e-mail checks are parameters (`Formats`). Issue messages are
  modelled where the schemas name them; zod's own default messages are not.
- `Number(...)` and `+x` are modelled for integers only. The empty string, an
  optionally negated run of decimal digits, booleans and null are handled;
  any other text is NaN. Decimal fractions, exponents, hexadecimal and
  surrounding white space are not modelled, and there are no floating-point
  numbers.
- Values.JsonToNumber: `+x` on an array or object in a JSON body is NaN in
  the model. JavaScript converts an array through its text, so `+[7]` is 7
  and `+[]` is 0. For a body such as `{"id": [7], "boardId": 1}`, the
  model's label lookup drops the NaN id condition and returns every label on
  board 1. The source looks up label 7 only.
- Schemas.StringField and Schemas.CheckIssues count a string's length in
  Unicode characters. zod counts UTF-16 code units, so a character outside
  the Basic Multilingual Plane counts twice there. A title of 13 emoji passes
  `.max(25)` in the model, but zod refuses it. The same applies to the
  username, password, listName and labelName bounds.
- When NaN or a negative skip reaches the store, the model throws
  `StoreRejectsArgument()`, a validation error (400). When a missing row is
  updated or deleted, it throws `RecordNotFound()` (code P2025, 404). Neither
  models the store's own error text.
- BoardController.DeleteBoardStep removes only the board row. The schema's
  referential actions on memberships, likes, lists and labels are not part of
  this model.
- ListServices.ListMatches and LabelServices.LabelMatches: the search
  condition in the source names a `title` column, which the list and label
  tables do not have by the names the handlers use. As written, the store
  refuses every search with a validation error (400); this is
  `GetListsAsWritten` and `GetLabelAsWritten`. The handlers use the
  intended behaviour, a match on `listName` and `labelName` (see Findings).
  The store schema is not part of this model, so the missing column is read
  off the names the handlers write.
- Store.FirstRole, LabelController.CreateLabelStep and
  LabelController.EditLabelStep: with no requester, the source's
  `findFirst` returns whichever membership row of the board the store scans
  first. The model takes that scan order as the parameter `memberScan` and
  promises nothing about which order the store uses.
- Ids, board ids, pages and limits are unbounded integers. The store's id
  columns are 32-bit, and the store raises an error for a value outside that
  range (for example `?id=3000000000`). The model instead answers such a
  request as it would any absent id, and a page or limit of any size is
  accepted.
- LabelServices.GetLabel: the source gives the label query no order. The scan
  order is a parameter, constrained by `ScanOrder` to name each stored label
  once.
- ListServices.UpdateListStep sets `updatedAt` to the clock's time. The store
  stamps rows on update, so this is assumed rather than written in the
  source.
- BoardServices.UpdateBoardStep sets `updatedAt` to the clock's time in the
  same way. The source writes only the edited fields, and the store's
  update stamp is assumed to set the time.
- AuthService.GoogleLoginStep does not model the catch-all that turns any
  failure into 400 "Google login failed". The model has no failing primitive.
- The take of a negative limit is refused along with a negative skip.
  Prisma's reverse-paging meaning of a negative take is not modelled.
- The auth controller, the routes, the passport configuration and the server
  set-up are not part of this model.
- UserMiddleware.Authenticate treats a thrown verification error other than
  expiry as one "invalid" case. The error types of the token library are not
  modelled.

## Findings

| source | as written | input that shows it | evidently intended | confidence | as-written member | corrected member |
|---|---|---|---|---|---|---|
| src/services/list.services.ts:99-108 | the search condition names `title`, a column lists do not have, so the store refuses the query | `GET /list?boardId=1&search=todo` answers 400 "Invalid data format provided." | a case-insensitive match on the list's name | medium, not executed; the store schema is not part of this model | ListServices.GetListsAsWritten, ListServices.ListSearchRefusedAsWritten | ListServices.GetLists, ListServices.GetListsResult |
| src/services/label.services.ts:26-35 | the search condition names `title`, a column labels do not have, so the store refuses the query | a label lookup with `search: "bug"` answers 400 "Invalid data format provided." | a case-insensitive match on the label's name | medium, not executed; the store schema is not part of this model | LabelServices.GetLabelAsWritten, LabelServices.LabelSearchRefusedAsWritten | LabelServices.GetLabel, LabelServices.GetLabelResult |
