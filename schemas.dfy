/**
 * The zod schemas for boards, lists, labels and the auth forms, as functions
 * from a JSON body to the issues zod reports (the body parses iff there are
 * none). Each schema is paired with a plain predicate saying which bodies it
 * accepts, and a lemma that the two agree.
 */
module Schemas {
  import opened Wrappers
  import opened Values

  datatype IssueKind =
    | InvalidType        // missing, null, or of the wrong JSON type
    | TooSmall           // string shorter than `min`, number below `min`
    | TooBig             // string longer than `max`
    | InvalidEnumValue   // not a member of the enum
    | InvalidUrl
    | InvalidEmail
    | UnrecognizedKeys   // a strict object with keys outside its shape
    | CustomCheck        // a `.refine` that failed

  /** One zod issue; `message` is the schema's own text when it gives one, else zod's default text for `kind`. */
  datatype Issue = Issue(path: seq<string>, kind: IssueKind, message: Option<string>)

  /** zod's `.url()` and `.email()` format checks, which are not modelled. */
  datatype Formats = Formats(isUrl: string -> bool, isEmail: string -> bool)

  /** One check of a `z.string()` chain, with its custom message if any. */
  datatype StringCheck =
    | MinLength(n: nat, msg: Option<string>)
    | MaxLength(n: nat, msg: Option<string>)
    | Url(msg: Option<string>)
    | Email(msg: Option<string>)

  datatype Presence = Required | Optional

  predicate Passes(s: string, c: StringCheck, formats: Formats) {
    match c
    case MinLength(n, _) => |s| >= n
    case MaxLength(n, _) => |s| <= n
    case Url(_) => formats.isUrl(s)
    case Email(_) => formats.isEmail(s)
  }

  function KindOf(c: StringCheck): IssueKind {
    match c
    case MinLength(_, _) => TooSmall
    case MaxLength(_, _) => TooBig
    case Url(_) => InvalidUrl
    case Email(_) => InvalidEmail
  }

  /** zod runs every check of a string chain in order and reports each that fails. */
  function CheckIssues(key: string, s: string, checks: seq<StringCheck>, formats: Formats): seq<Issue> {
    if checks == [] then []
    else
      (if Passes(s, checks[0], formats) then [] else [Issue([key], KindOf(checks[0]), checks[0].msg)])
      + CheckIssues(key, s, checks[1..], formats)
  }

  predicate AllPass(s: string, checks: seq<StringCheck>, formats: Formats) {
    forall i :: 0 <= i < |checks| ==> Passes(s, checks[i], formats)
  }

  lemma {:induction false} CheckIssuesEmpty(key: string, s: string, checks: seq<StringCheck>, formats: Formats)
    ensures CheckIssues(key, s, checks, formats) == [] <==> AllPass(s, checks, formats)
  {
    if checks != [] {
      CheckIssuesEmpty(key, s, checks[1..], formats);
      assert forall i :: 1 <= i < |checks| ==> checks[i] == checks[1..][i - 1];
    }
  }

  /** A `z.string()` field; a wrong type stops the chain with a single issue. */
  function StringField(body: Body, key: string, presence: Presence, checks: seq<StringCheck>, formats: Formats): seq<Issue> {
    if key !in body then (if presence == Required then [Issue([key], InvalidType, None)] else [])
    else if body[key].JStr? then CheckIssues(key, body[key].s, checks, formats)
    else [Issue([key], InvalidType, None)]
  }

  /** A `z.number().min(min, msg)` field. */
  function NumberField(body: Body, key: string, presence: Presence, min: int, msg: Option<string>): seq<Issue> {
    if key !in body then (if presence == Required then [Issue([key], InvalidType, None)] else [])
    else if body[key].JNum? then (if body[key].n >= min then [] else [Issue([key], TooSmall, msg)])
    else [Issue([key], InvalidType, None)]
  }

  /** The member names of the store's `Visibility` enum. */
  const VisibilityNames: set<string> := {"PRIVATE", "PUBLIC"}

  /**
   * A `z.nativeEnum(Visibility)` field (its `.refine(val !== undefined)` can
   * never fail): a value that is neither a string nor a number has the wrong
   * type; a string or number that names no member is an invalid enum value.
   */
  function VisibilityField(body: Body, key: string, presence: Presence): seq<Issue> {
    if key !in body then (if presence == Required then [Issue([key], InvalidType, None)] else [])
    else if body[key].JStr? && body[key].s in VisibilityNames then []
    else if body[key].JStr? || body[key].JNum? then [Issue([key], InvalidEnumValue, None)]
    else [Issue([key], InvalidType, None)]
  }

  /** `.strict()`: one issue, at the object itself, for keys outside the shape. */
  function Unrecognized(body: Body, shape: set<string>): seq<Issue> {
    if body.Keys <= shape then [] else [Issue([], UnrecognizedKeys, None)]
  }

  lemma AllPassPair(s: string, a: StringCheck, b: StringCheck, formats: Formats)
    ensures AllPass(s, [a, b], formats) <==> Passes(s, a, formats) && Passes(s, b, formats)
  {
    assert [a, b][0] == a && [a, b][1] == b;
  }

  lemma AllPassSingle(s: string, a: StringCheck, formats: Formats)
    ensures AllPass(s, [a], formats) <==> Passes(s, a, formats)
  {
    assert [a][0] == a;
  }

  lemma StringFieldEmpty(body: Body, key: string, presence: Presence, checks: seq<StringCheck>, formats: Formats)
    ensures StringField(body, key, presence, checks, formats) == [] <==>
      if key in body then body[key].JStr? && AllPass(body[key].s, checks, formats) else presence == Optional
  {
    if key in body && body[key].JStr? {
      CheckIssuesEmpty(key, body[key].s, checks, formats);
    }
  }

  // ---- the schemas -------------------------------------------------------

  const BoardShape: set<string> := {"title", "visibility", "backgroundImg"}

  const TitleChecks: seq<StringCheck> := [MinLength(1, Some("Title is required")), MaxLength(25, Some(""))]
  const BackgroundChecks: seq<StringCheck> := [MinLength(1, Some("Background image is required")), Url(None)]

  /** `boardSchema`. */
  function BoardCreateIssues(body: Body, formats: Formats): seq<Issue> {
    StringField(body, "title", Required, TitleChecks, formats)
    + VisibilityField(body, "visibility", Required)
    + StringField(body, "backgroundImg", Required, BackgroundChecks, formats)
    + Unrecognized(body, BoardShape)
  }

  const TitleUpdateChecks: seq<StringCheck> :=
    [MinLength(1, Some("Title is required")), MaxLength(25, Some("Title must not exceed 25 characters"))]
  const BackgroundUpdateChecks: seq<StringCheck> := [Url(Some("Invalid URL format for background image"))]

  /** `boardUpdateSchema`: every field optional, still strict, and no `archived`. */
  function BoardUpdateIssues(body: Body, formats: Formats): seq<Issue> {
    StringField(body, "title", Optional, TitleUpdateChecks, formats)
    + VisibilityField(body, "visibility", Optional)
    + StringField(body, "backgroundImg", Optional, BackgroundUpdateChecks, formats)
    + Unrecognized(body, BoardShape)
  }

  const ListNameChecks: seq<StringCheck> :=
    [MinLength(3, Some("listName should be at least 3 character")), MaxLength(20, Some("listName should be less than 20 character"))]

  /** `listCreateSchema` (not strict: other keys are stripped, not rejected). */
  function ListCreateIssues(body: Body, formats: Formats): seq<Issue> {
    StringField(body, "listName", Required, ListNameChecks, formats)
    + NumberField(body, "boardId", Required, 1, Some("boardId is required"))
  }

  const ListUpdateShape: set<string> := {"listName", "listId"}

  /** `listUpdateSchema`. */
  function ListUpdateIssues(body: Body, formats: Formats): seq<Issue> {
    StringField(body, "listName", Optional, ListNameChecks, formats)
    + NumberField(body, "listId", Optional, 1, Some("boardId is required"))
    + Unrecognized(body, ListUpdateShape)
  }

  const LabelNameChecks: seq<StringCheck> :=
    [MinLength(3, Some("labelName must have atleat 3 character")), MaxLength(20, Some("labelName must be less than 20 character"))]
  const ColorChecks: seq<StringCheck> := [MinLength(1, Some("color is required"))]

  /** `labelCreateSchema` (not strict). */
  function LabelCreateIssues(body: Body, formats: Formats): seq<Issue> {
    StringField(body, "labelName", Required, LabelNameChecks, formats)
    + StringField(body, "color", Required, ColorChecks, formats)
    + NumberField(body, "boardId", Required, 1, Some("boardId is required"))
  }

  const LabelUpdateShape: set<string> := {"id", "labelName", "color", "boardId"}

  /** `labelUpdateSchema`. */
  function LabelUpdateIssues(body: Body, formats: Formats): seq<Issue> {
    NumberField(body, "id", Required, 1, Some("labelId is required"))
    + StringField(body, "labelName", Optional, LabelNameChecks, formats)
    + StringField(body, "color", Optional, ColorChecks, formats)
    + NumberField(body, "boardId", Optional, 1, Some("boardId is required"))
    + Unrecognized(body, LabelUpdateShape)
  }

  const UsernameChecks: seq<StringCheck> := [MinLength(3, None), MaxLength(255, None)]
  const PasswordChecks: seq<StringCheck> := [MinLength(6, None), MaxLength(255, None)]
  const EmailChecks: seq<StringCheck> := [Email(None)]

  const RegisterShape: set<string> := {"username", "email", "password", "confirmPassword"}

  /** zod runs an object's `.refine` only when no field had the wrong type. */
  predicate FieldsAreStrings(body: Body, keys: set<string>) {
    forall k :: k in keys ==> k in body && body[k].JStr?
  }

  /** `registerValidationSchema`: four string fields, then the password-match refinement. */
  function RegisterIssues(body: Body, formats: Formats): seq<Issue> {
    StringField(body, "username", Required, UsernameChecks, formats)
    + StringField(body, "email", Required, EmailChecks, formats)
    + StringField(body, "password", Required, PasswordChecks, formats)
    + StringField(body, "confirmPassword", Required, PasswordChecks, formats)
    + (if FieldsAreStrings(body, RegisterShape) && body["password"] != body["confirmPassword"]
       then [Issue(["confirmPassword"], CustomCheck, Some("Passwords do not match"))]
       else [])
  }

  /** `loginValidationSchema`. */
  function LoginIssues(body: Body, formats: Formats): seq<Issue> {
    StringField(body, "email", Required, EmailChecks, formats)
    + StringField(body, "password", Required, PasswordChecks, formats)
  }

  // ---- which bodies each schema accepts, stated directly -------------------

  predicate StringWithin(body: Body, key: string, min: nat, max: nat) {
    key in body && body[key].JStr? && min <= |body[key].s| <= max
  }

  predicate AbsentOrStringWithin(body: Body, key: string, min: nat, max: nat) {
    key !in body || StringWithin(body, key, min, max)
  }

  predicate NumberAtLeastOne(body: Body, key: string) {
    key in body && body[key].JNum? && body[key].n >= 1
  }

  predicate IsVisibility(body: Body, key: string) {
    key in body && body[key].JStr? && body[key].s in VisibilityNames
  }

  predicate IsUrlOfLength(body: Body, key: string, min: nat, formats: Formats) {
    key in body && body[key].JStr? && |body[key].s| >= min && formats.isUrl(body[key].s)
  }

  predicate IsEmail(body: Body, key: string, formats: Formats) {
    key in body && body[key].JStr? && formats.isEmail(body[key].s)
  }

  lemma BoardCreateAccepts(body: Body, formats: Formats)
    ensures BoardCreateIssues(body, formats) == [] <==>
      && StringWithin(body, "title", 1, 25)
      && IsVisibility(body, "visibility")
      && IsUrlOfLength(body, "backgroundImg", 1, formats)
      && body.Keys <= BoardShape
  {
    StringFieldEmpty(body, "title", Required, TitleChecks, formats);
    if "title" in body && body["title"].JStr? { AllPassPair(body["title"].s, TitleChecks[0], TitleChecks[1], formats); }
    StringFieldEmpty(body, "backgroundImg", Required, BackgroundChecks, formats);
    if "backgroundImg" in body && body["backgroundImg"].JStr? { AllPassPair(body["backgroundImg"].s, BackgroundChecks[0], BackgroundChecks[1], formats); }
  }

  lemma BoardUpdateAccepts(body: Body, formats: Formats)
    ensures BoardUpdateIssues(body, formats) == [] <==>
      && AbsentOrStringWithin(body, "title", 1, 25)
      && ("visibility" !in body || IsVisibility(body, "visibility"))
      && ("backgroundImg" !in body || IsUrlOfLength(body, "backgroundImg", 0, formats))
      && body.Keys <= BoardShape
  {
    StringFieldEmpty(body, "title", Optional, TitleUpdateChecks, formats);
    if "title" in body && body["title"].JStr? { AllPassPair(body["title"].s, TitleUpdateChecks[0], TitleUpdateChecks[1], formats); }
    StringFieldEmpty(body, "backgroundImg", Optional, BackgroundUpdateChecks, formats);
    if "backgroundImg" in body && body["backgroundImg"].JStr? { AllPassSingle(body["backgroundImg"].s, BackgroundUpdateChecks[0], formats); }
  }

  /** A board update can never carry `archived`. */
  lemma BoardUpdateRejectsArchived(body: Body, formats: Formats)
    requires "archived" in body
    ensures Issue([], UnrecognizedKeys, None) in BoardUpdateIssues(body, formats)
  {
    assert !(body.Keys <= BoardShape);
  }

  lemma ListCreateAccepts(body: Body, formats: Formats)
    ensures ListCreateIssues(body, formats) == [] <==>
      StringWithin(body, "listName", 3, 20) && NumberAtLeastOne(body, "boardId")
  {
    StringFieldEmpty(body, "listName", Required, ListNameChecks, formats);
    if "listName" in body && body["listName"].JStr? { AllPassPair(body["listName"].s, ListNameChecks[0], ListNameChecks[1], formats); }
  }

  lemma ListUpdateAccepts(body: Body, formats: Formats)
    ensures ListUpdateIssues(body, formats) == [] <==>
      && AbsentOrStringWithin(body, "listName", 3, 20)
      && ("listId" !in body || NumberAtLeastOne(body, "listId"))
      && body.Keys <= ListUpdateShape
  {
    StringFieldEmpty(body, "listName", Optional, ListNameChecks, formats);
    if "listName" in body && body["listName"].JStr? { AllPassPair(body["listName"].s, ListNameChecks[0], ListNameChecks[1], formats); }
  }

  lemma LabelCreateAccepts(body: Body, formats: Formats)
    ensures LabelCreateIssues(body, formats) == [] <==>
      && StringWithin(body, "labelName", 3, 20)
      && "color" in body && body["color"].JStr? && body["color"].s != ""
      && NumberAtLeastOne(body, "boardId")
  {
    StringFieldEmpty(body, "labelName", Required, LabelNameChecks, formats);
    if "labelName" in body && body["labelName"].JStr? { AllPassPair(body["labelName"].s, LabelNameChecks[0], LabelNameChecks[1], formats); }
    StringFieldEmpty(body, "color", Required, ColorChecks, formats);
    if "color" in body && body["color"].JStr? { AllPassSingle(body["color"].s, ColorChecks[0], formats); }
  }

  lemma LabelUpdateAccepts(body: Body, formats: Formats)
    ensures LabelUpdateIssues(body, formats) == [] <==>
      && NumberAtLeastOne(body, "id")
      && AbsentOrStringWithin(body, "labelName", 3, 20)
      && ("color" !in body || (body["color"].JStr? && body["color"].s != ""))
      && ("boardId" !in body || NumberAtLeastOne(body, "boardId"))
      && body.Keys <= LabelUpdateShape
  {
    StringFieldEmpty(body, "labelName", Optional, LabelNameChecks, formats);
    if "labelName" in body && body["labelName"].JStr? { AllPassPair(body["labelName"].s, LabelNameChecks[0], LabelNameChecks[1], formats); }
    StringFieldEmpty(body, "color", Optional, ColorChecks, formats);
    if "color" in body && body["color"].JStr? { AllPassSingle(body["color"].s, ColorChecks[0], formats); }
  }

  lemma RegisterAccepts(body: Body, formats: Formats)
    ensures RegisterIssues(body, formats) == [] <==>
      && StringWithin(body, "username", 3, 255)
      && IsEmail(body, "email", formats)
      && StringWithin(body, "password", 6, 255)
      && StringWithin(body, "confirmPassword", 6, 255)
      && body["password"] == body["confirmPassword"]
  {
    StringFieldEmpty(body, "username", Required, UsernameChecks, formats);
    if "username" in body && body["username"].JStr? { AllPassPair(body["username"].s, UsernameChecks[0], UsernameChecks[1], formats); }
    StringFieldEmpty(body, "email", Required, EmailChecks, formats);
    if "email" in body && body["email"].JStr? { AllPassSingle(body["email"].s, EmailChecks[0], formats); }
    StringFieldEmpty(body, "password", Required, PasswordChecks, formats);
    if "password" in body && body["password"].JStr? { AllPassPair(body["password"].s, PasswordChecks[0], PasswordChecks[1], formats); }
    StringFieldEmpty(body, "confirmPassword", Required, PasswordChecks, formats);
    if "confirmPassword" in body && body["confirmPassword"].JStr? { AllPassPair(body["confirmPassword"].s, PasswordChecks[0], PasswordChecks[1], formats); }
  }

  /** Well-typed fields with different passwords always yield the refinement issue at `confirmPassword`. */
  lemma RegisterMismatchIssue(body: Body, formats: Formats)
    requires FieldsAreStrings(body, RegisterShape)
    requires body["password"] != body["confirmPassword"]
    ensures Issue(["confirmPassword"], CustomCheck, Some("Passwords do not match")) in RegisterIssues(body, formats)
  {
  }

  lemma LoginAccepts(body: Body, formats: Formats)
    ensures LoginIssues(body, formats) == [] <==>
      IsEmail(body, "email", formats) && StringWithin(body, "password", 6, 255)
  {
    StringFieldEmpty(body, "email", Required, EmailChecks, formats);
    if "email" in body && body["email"].JStr? { AllPassSingle(body["email"].s, EmailChecks[0], formats); }
    StringFieldEmpty(body, "password", Required, PasswordChecks, formats);
    if "password" in body && body["password"].JStr? { AllPassPair(body["password"].s, PasswordChecks[0], PasswordChecks[1], formats); }
  }
}
