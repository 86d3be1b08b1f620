/**
 * Task creation, `POST /api/tasks` in `src/app/api/tasks/route.ts`: the
 * request body is normalised (empty values become `null`, the category id is
 * passed through `parseInt`), checked against the task schema, and turned
 * into one of four responses: 401 without a session, 400 with one
 * `{field, message}` entry per schema violation, 500 for any other failure,
 * and the created task otherwise.
 *
 * The schema is the one the route declares with zod; its messages for the
 * title are the route's own, the others are zod's standard messages. zod's
 * ISO date-time check is a parameter, `isDatetime`.
 */
module TaskRoute {
  import opened Wrappers
  import opened Strings
  import opened JsValues

  /** The fields of the request body the route reads; a missing key is `Undefined`. */
  datatype TaskBody = TaskBody(title: JsValue, description: JsValue, priority: JsValue, dueDate: JsValue, categoryId: JsValue)

  datatype Priority = High | Medium | Low

  /** A task that passed the schema: what is handed to the store. */
  datatype TaskInput = TaskInput(title: string, description: Option<string>, priority: Option<Priority>,
                                 dueDate: Option<string>, categoryId: Option<int>)

  /** One schema violation: the path of the offending field and zod's message for it. */
  datatype Issue = Issue(path: seq<string>, message: string)

  const TITLE_MAX_LENGTH: nat := 255
  const TITLE_REQUIRED_MESSAGE := "タイトルは必須です"
  const TITLE_TOO_LONG_MESSAGE := "タイトルは255文字以内で入力してください"
  const PRIORITY_NAMES := "'HIGH' | 'MEDIUM' | 'LOW'"

  /** The `processedData` rewrite: empty values become `null`, a truthy category id goes through `parseInt`. */
  function Normalize(data: TaskBody): (p: TaskBody)
    ensures p.title == data.title
    ensures p.description == Null <==> !Truthy(data.description)
    ensures p.description != Null ==> p.description == data.description
    ensures p.priority == Null <==> data.priority == Null || data.priority == Str("")
    ensures p.priority != Null ==> p.priority == data.priority
    ensures p.dueDate == Null <==> data.dueDate == Null || data.dueDate == Str("")
    ensures p.dueDate != Null ==> p.dueDate == data.dueDate
    ensures p.categoryId == Null <==> !Truthy(data.categoryId)
    ensures Truthy(data.categoryId) ==> p.categoryId == FromParsed(ParseInt(data.categoryId))
  {
    TaskBody(
      data.title,
      if Truthy(data.description) then data.description else Null,
      if data.priority == Str("") then Null else data.priority,
      if data.dueDate == Str("") then Null else data.dueDate,
      if Truthy(data.categoryId) then FromParsed(ParseInt(data.categoryId)) else Null)
  }

  /** The number `parseInt` produced, or `NaN`. */
  function FromParsed(r: Option<int>): (v: JsValue)
    ensures v.Num? || v.NaN?
  {
    if r.Some? then Num(r.value) else NaN
  }

  /** The name zod gives the type of a value it received. */
  function TypeName(v: JsValue): string
  {
    match v
    case Undefined => "undefined"
    case Null => "null"
    case Bool(_) => "boolean"
    case Num(_) => "number"
    case NaN => "nan"
    case Str(_) => "string"
    case Arr(_) => "array"
    case Obj => "object"
  }

  /** zod's `invalid_type` issue: "Required" for a missing value, otherwise what was expected and received. */
  function InvalidType(field: string, expected: string, v: JsValue): Issue
  {
    Issue([field], if v.Undefined? then "Required" else "Expected " + expected + ", received " + TypeName(v))
  }

  /** `z.string().min(1, …).max(255, …)` on the title. */
  function TitleIssues(v: JsValue): seq<Issue>
  {
    match v
    case Str(s) =>
      (if |s| < 1 then [Issue(["title"], TITLE_REQUIRED_MESSAGE)] else [])
      + (if |s| > TITLE_MAX_LENGTH then [Issue(["title"], TITLE_TOO_LONG_MESSAGE)] else [])
    case _ => [InvalidType("title", "string", v)]
  }

  /** `z.string().optional().nullable()` on the description. */
  function DescriptionIssues(v: JsValue): seq<Issue>
  {
    if v.Undefined? || v.Null? || v.Str? then [] else [InvalidType("description", "string", v)]
  }

  /** The priority a string names, if it names one. */
  function PriorityOf(s: string): Option<Priority>
  {
    if s == "HIGH" then Some(High)
    else if s == "MEDIUM" then Some(Medium)
    else if s == "LOW" then Some(Low)
    else None
  }

  /** `z.enum(["HIGH", "MEDIUM", "LOW"]).optional().nullable()` on the priority. */
  function PriorityIssues(v: JsValue): seq<Issue>
  {
    match v
    case Undefined => []
    case Null => []
    case Str(s) =>
      if PriorityOf(s).Some? then []
      else [Issue(["priority"], "Invalid enum value. Expected " + PRIORITY_NAMES + ", received '" + s + "'")]
    case _ => [InvalidType("priority", PRIORITY_NAMES, v)]
  }

  /** `z.string().datetime().optional().nullable()` on the due date. */
  function DueDateIssues(v: JsValue, isDatetime: string -> bool): seq<Issue>
  {
    match v
    case Undefined => []
    case Null => []
    case Str(s) => if isDatetime(s) then [] else [Issue(["dueDate"], "Invalid datetime")]
    case _ => [InvalidType("dueDate", "string", v)]
  }

  /** `z.number().optional().nullable()` on the category id; zod rejects `NaN` as a number. */
  function CategoryIssues(v: JsValue): seq<Issue>
  {
    if v.Undefined? || v.Null? || v.Num? then [] else [InvalidType("categoryId", "number", v)]
  }

  /** All violations of `taskSchema`, in the order of the schema's keys. */
  function Violations(p: TaskBody, isDatetime: string -> bool): seq<Issue>
  {
    TitleIssues(p.title) + DescriptionIssues(p.description) + PriorityIssues(p.priority)
    + DueDateIssues(p.dueDate, isDatetime) + CategoryIssues(p.categoryId)
  }

  /** The schema's rules, each field on its own. */
  predicate TitleOk(v: JsValue)
  {
    v.Str? && 1 <= |v.s| <= TITLE_MAX_LENGTH
  }

  predicate PriorityOk(v: JsValue)
  {
    v.Undefined? || v.Null? || (v.Str? && v.s in {"HIGH", "MEDIUM", "LOW"})
  }

  predicate DueDateOk(v: JsValue, isDatetime: string -> bool)
  {
    v.Undefined? || v.Null? || (v.Str? && isDatetime(v.s))
  }

  /** The body satisfies `taskSchema`. */
  predicate Accepts(p: TaskBody, isDatetime: string -> bool)
  {
    && TitleOk(p.title)
    && (p.description.Undefined? || p.description.Null? || p.description.Str?)
    && PriorityOk(p.priority)
    && DueDateOk(p.dueDate, isDatetime)
    && (p.categoryId.Undefined? || p.categoryId.Null? || p.categoryId.Num?)
  }

  /** An optional string field after the schema: `undefined` and `null` are both no value. */
  function OptionalString(v: JsValue): Option<string>
  {
    if v.Str? then Some(v.s) else None
  }

  /** `taskSchema.parse(p)`: the typed task, or every violation. */
  function Validate(p: TaskBody, isDatetime: string -> bool): (r: Result<TaskInput, seq<Issue>>)
    ensures r.Ok? <==> Accepts(p, isDatetime)
    ensures r.Err? ==> r.error != []
    ensures r.Ok? ==> && p.title == Str(r.value.title)
                      && 1 <= |r.value.title| <= TITLE_MAX_LENGTH
                      && r.value.description == OptionalString(p.description)
                      && r.value.dueDate == OptionalString(p.dueDate)
                      && r.value.priority == (if p.priority.Str? then PriorityOf(p.priority.s) else None)
                      && (p.priority.Str? ==> PriorityOf(p.priority.s).Some?)
                      && r.value.categoryId == (if p.categoryId.Num? then Some(p.categoryId.n) else None)
  {
    var issues := Violations(p, isDatetime);
    ViolationsEmptyIff(p, isDatetime);
    if issues != [] then Err(issues)
    else
      Ok(TaskInput(
        p.title.s,
        OptionalString(p.description),
        if p.priority.Str? then PriorityOf(p.priority.s) else None,
        OptionalString(p.dueDate),
        if p.categoryId.Num? then Some(p.categoryId.n) else None))
  }

  /** A body has no violation exactly when it satisfies every rule of the schema. */
  lemma ViolationsEmptyIff(p: TaskBody, isDatetime: string -> bool)
    ensures Violations(p, isDatetime) == [] <==> Accepts(p, isDatetime)
  {
  }

  /** The five keys of the schema, in order; every violation names one of them. */
  const FIELD_NAMES: seq<string> := ["title", "description", "priority", "dueDate", "categoryId"]

  /** Some violation in `issues` is about field `f`. */
  predicate Mentions(issues: seq<Issue>, f: string)
  {
    exists i :: 0 <= i < |issues| && issues[i].path == [f]
  }

  /** Every violation in `issues` is about field `f`. */
  predicate AllAbout(issues: seq<Issue>, f: string)
  {
    forall i :: 0 <= i < |issues| ==> issues[i].path == [f]
  }

  /** Every violation in `issues` is about one of the schema's fields. */
  predicate AllNamed(issues: seq<Issue>)
  {
    forall i :: 0 <= i < |issues| ==> |issues[i].path| == 1 && issues[i].path[0] in FIELD_NAMES
  }

  lemma MentionsConcat(a: seq<Issue>, b: seq<Issue>, f: string)
    ensures Mentions(a + b, f) <==> Mentions(a, f) || Mentions(b, f)
    ensures AllNamed(a) && AllNamed(b) ==> AllNamed(a + b)
  {
    if Mentions(a + b, f) {
      var i :| 0 <= i < |a + b| && (a + b)[i].path == [f];
      if i >= |a| { assert b[i - |a|] == (a + b)[i]; }
    }
    if Mentions(b, f) {
      var i :| 0 <= i < |b| && b[i].path == [f];
      assert (a + b)[|a| + i] == b[i];
    }
    if Mentions(a, f) {
      var i :| 0 <= i < |a| && a[i].path == [f];
      assert (a + b)[i] == a[i];
    }
  }

  /** For violations all about one field: they mention that field exactly when there are any, and no other field. */
  lemma AllAboutMentions(issues: seq<Issue>, g: string, f: string)
    requires AllAbout(issues, g) && g in FIELD_NAMES
    ensures Mentions(issues, f) <==> issues != [] && f == g
    ensures AllNamed(issues)
  {
    if issues != [] && f == g {
      assert issues[0].path == [f];
    }
  }

  /** A field is mentioned among all violations exactly when one of the five fields' checks mentions it. */
  lemma {:induction false} ViolationsMention(p: TaskBody, isDatetime: string -> bool, f: string)
    ensures Mentions(Violations(p, isDatetime), f) <==>
      || Mentions(TitleIssues(p.title), f) || Mentions(DescriptionIssues(p.description), f)
      || Mentions(PriorityIssues(p.priority), f) || Mentions(DueDateIssues(p.dueDate, isDatetime), f)
      || Mentions(CategoryIssues(p.categoryId), f)
    ensures (&& AllNamed(TitleIssues(p.title)) && AllNamed(DescriptionIssues(p.description))
             && AllNamed(PriorityIssues(p.priority)) && AllNamed(DueDateIssues(p.dueDate, isDatetime))
             && AllNamed(CategoryIssues(p.categoryId))) ==> AllNamed(Violations(p, isDatetime))
  {
    var t, d, pr := TitleIssues(p.title), DescriptionIssues(p.description), PriorityIssues(p.priority);
    var dd, c := DueDateIssues(p.dueDate, isDatetime), CategoryIssues(p.categoryId);
    assert Violations(p, isDatetime) == t + (d + (pr + (dd + c)));
    MentionsConcat(dd, c, f);
    MentionsConcat(pr, dd + c, f);
    MentionsConcat(d, pr + (dd + c), f);
    MentionsConcat(t, d + (pr + (dd + c)), f);
  }

  /** Each field's check mentions that field only, and mentions it exactly when it finds a violation. */
  lemma FieldChecksMentionOwnField(p: TaskBody, isDatetime: string -> bool, f: string)
    ensures Mentions(TitleIssues(p.title), f) <==> TitleIssues(p.title) != [] && f == "title"
    ensures Mentions(DescriptionIssues(p.description), f) <==> DescriptionIssues(p.description) != [] && f == "description"
    ensures Mentions(PriorityIssues(p.priority), f) <==> PriorityIssues(p.priority) != [] && f == "priority"
    ensures Mentions(DueDateIssues(p.dueDate, isDatetime), f) <==> DueDateIssues(p.dueDate, isDatetime) != [] && f == "dueDate"
    ensures Mentions(CategoryIssues(p.categoryId), f) <==> CategoryIssues(p.categoryId) != [] && f == "categoryId"
    ensures && AllNamed(TitleIssues(p.title)) && AllNamed(DescriptionIssues(p.description))
            && AllNamed(PriorityIssues(p.priority)) && AllNamed(DueDateIssues(p.dueDate, isDatetime))
            && AllNamed(CategoryIssues(p.categoryId))
  {
    AllAboutMentions(TitleIssues(p.title), "title", f);
    AllAboutMentions(DescriptionIssues(p.description), "description", f);
    AllAboutMentions(PriorityIssues(p.priority), "priority", f);
    AllAboutMentions(DueDateIssues(p.dueDate, isDatetime), "dueDate", f);
    AllAboutMentions(CategoryIssues(p.categoryId), "categoryId", f);
  }

  /**
   * Every violation is about one top-level field of the schema, and a field
   * has a violation exactly when it breaks its rule: the title when it is not
   * a string of 1 to 255 characters, the priority when it is set to anything
   * but `HIGH`, `MEDIUM` or `LOW`.
   */
  lemma {:induction false} ViolationFields(p: TaskBody, isDatetime: string -> bool)
    ensures AllNamed(Violations(p, isDatetime))
    ensures Mentions(Violations(p, isDatetime), "title") <==> !TitleOk(p.title)
    ensures Mentions(Violations(p, isDatetime), "priority") <==> !PriorityOk(p.priority)
  {
    assert TitleIssues(p.title) == [] <==> TitleOk(p.title);
    assert PriorityIssues(p.priority) == [] <==> PriorityOk(p.priority);
    FieldChecksMentionOwnField(p, isDatetime, "title");
    ViolationsMention(p, isDatetime, "title");
    FieldChecksMentionOwnField(p, isDatetime, "priority");
    ViolationsMention(p, isDatetime, "priority");
  }

  datatype Session = NoSession | SignedIn(userId: string)

  /** The request body: JSON that could not be read as an object, or the fields read from it. */
  datatype RequestBody = Malformed | Parsed(data: TaskBody)

  /** The row handed to the store for creation. */
  datatype NewTask = NewTask(input: TaskInput, userId: int, completed: bool)

  /** One entry of the `details` list of a 400 response. */
  datatype Detail = Detail(field: string, message: string)

  datatype Response = Unauthorized | BadRequest(details: seq<Detail>) | ServerError | Created(task: NewTask)

  /** `error.errors.map(err => ({ field: err.path.join('.'), message: err.message }))`. */
  function DetailsOf(issues: seq<Issue>): (ds: seq<Detail>)
    ensures |ds| == |issues|
    ensures forall k :: 0 <= k < |issues| ==> ds[k] == Detail(Join(issues[k].path, "."), issues[k].message)
  {
    seq(|issues|, k requires 0 <= k < |issues| => Detail(Join(issues[k].path, "."), issues[k].message))
  }

  /**
   * `POST /api/tasks`. Without a session user the body is not looked at. A
   * body that cannot be read, a user id that is not a number, or a failing
   * store (`storeOk` false) ends in the generic server error.
   */
  function Post(session: Session, body: RequestBody, isDatetime: string -> bool, storeOk: bool): (r: Response)
    ensures session.NoSession? <==> r.Unauthorized?
    ensures r.BadRequest? <==> session.SignedIn? && body.Parsed? && !Accepts(Normalize(body.data), isDatetime)
    ensures r.BadRequest? ==> r.details == DetailsOf(Violations(Normalize(body.data), isDatetime))
    ensures r.Created? ==> && session.SignedIn? && body.Parsed? && storeOk
                           && Validate(Normalize(body.data), isDatetime) == Ok(r.task.input)
                           && !r.task.completed
                           && ParseInt(Str(session.userId)) == Some(r.task.userId)
    ensures (&& session.SignedIn? && body.Parsed? && Accepts(Normalize(body.data), isDatetime) && storeOk
             && ParseInt(Str(session.userId)).Some?) ==> r.Created?
  {
    match session
    case NoSession => Unauthorized
    case SignedIn(id) =>
      match body
      case Malformed => ServerError
      case Parsed(data) =>
        match Validate(Normalize(data), isDatetime)
        case Err(issues) => BadRequest(DetailsOf(issues))
        case Ok(input) =>
          var userId := ParseInt(Str(id));
          if userId.Some? && storeOk then Created(NewTask(input, userId.value, false)) else ServerError
  }

  /** The HTTP status of each response. */
  function Status(r: Response): (code: int)
    ensures r.Unauthorized? <==> code == 401
    ensures r.BadRequest? <==> code == 400
    ensures r.ServerError? <==> code == 500
    ensures r.Created? <==> code == 200
  {
    match r
    case Unauthorized => 401
    case BadRequest(_) => 400
    case ServerError => 500
    case Created(_) => 200
  }

  /** The entries built from violations about the schema's fields name those fields. */
  lemma DetailFields(v: seq<Issue>, f: string)
    requires AllNamed(v)
    ensures forall k :: 0 <= k < |v| ==> DetailsOf(v)[k].field in FIELD_NAMES
    ensures (exists k :: 0 <= k < |v| && DetailsOf(v)[k].field == f) <==> Mentions(v, f)
  {
    var ds := DetailsOf(v);
    forall k | 0 <= k < |v|
      ensures ds[k].field == v[k].path[0]
      ensures ds[k].field == f <==> v[k].path == [f]
    {
      assert v[k].path == [v[k].path[0]];
    }
    if Mentions(v, f) {
      var i :| 0 <= i < |v| && v[i].path == [f];
      assert ds[i].field == f;
    }
  }

  /**
   * A 400 response lists exactly one entry per violation, each named by its
   * field, and lists the title exactly when the title breaks its rule.
   */
  lemma BadRequestDetails(id: string, data: TaskBody, isDatetime: string -> bool, storeOk: bool)
    requires !Accepts(Normalize(data), isDatetime)
    ensures var r := Post(SignedIn(id), Parsed(data), isDatetime, storeOk);
      && Status(r) == 400
      && |r.details| == |Violations(Normalize(data), isDatetime)|
      && (forall k :: 0 <= k < |r.details| ==> r.details[k].field in FIELD_NAMES)
      && ((exists k :: 0 <= k < |r.details| && r.details[k].field == "title") <==> !TitleOk(data.title))
  {
    var v := Violations(Normalize(data), isDatetime);
    ViolationFields(Normalize(data), isDatetime);
    DetailFields(v, "title");
  }

  /** Creating a task with an empty title is answered with 400 and a `title` entry. */
  lemma EmptyTitleRejected(id: string, data: TaskBody, isDatetime: string -> bool, storeOk: bool)
    requires data.title == Str("")
    ensures var r := Post(SignedIn(id), Parsed(data), isDatetime, storeOk);
      Status(r) == 400 && r.details[0] == Detail("title", TITLE_REQUIRED_MESSAGE)
  {
  }

  /** A non-zero numeric category id survives normalisation unchanged. */
  lemma NumericCategoryKept(data: TaskBody)
    requires data.categoryId.Num? && data.categoryId.n != 0
    ensures Normalize(data).categoryId == data.categoryId
  {
    ParseIntNumber(data.categoryId.n);
  }

  /** A one-element array holding a number is truthy and `parseInt` reads it as that number. */
  lemma ArrayCategoryId(data: TaskBody, n: int)
    requires data.categoryId == Arr([Num(n)])
    ensures Normalize(data).categoryId == Num(n)
  {
    ParseIntSingletonArray(n);
  }
}
