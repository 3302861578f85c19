/**
 * The project store behind the JSON endpoints: serialization of a row, the
 * collection endpoint (list, create) and the detail endpoint (retrieve,
 * merge-patch update, delete), over a table kept as a map from id to row.
 */
module Views {
  import opened Wrappers
  import opened Text
  import opened JsonValues
  import opened Models

  const InvalidJson: string := "Invalid JSON"
  const NameRequired: string := "'name' is required"
  const InvalidType: string := "'type' must be one of the allowed choices"
  const ChartsNotObject: string := "'charts' must be an object"
  const BadDate: string := "'created_date' must be YYYY-MM-DD"
  const NotAllowed: string := "Method not allowed"

  /** A method name other than the five the views dispatch on (`HEAD`, `OPTIONS`, ...). */
  type OtherName = s: string | s !in ["GET", "POST", "PUT", "PATCH", "DELETE"] witness "HEAD"

  /** The request's method, as the views compare `request.method`. */
  datatype Method = GET | POST | PUT | PATCH | DELETE | OtherMethod(name: OtherName)

  /** A request body: absent, not valid JSON, or the value it decodes to. */
  datatype Body = NoBody | Malformed | Parsed(value: Json)

  /**
   * A response: a JSON reply with its status, the 404 page raised when no
   * row has the id, or the 500 page of an uncaught exception.
   */
  datatype Response = Reply(status: nat, body: Json) | NotFound | ServerError

  /** What `django.utils.dateparse.parse_date` does with a value: a date, `None`, or an exception. */
  datatype DateParse = DateOk(date: CalendarDate) | NoMatch | Raises

  /** A JSON error reply: `{"error": message}` with the given status. */
  function ErrorReply(status: nat, message: string): Response {
    Reply(status, JObj([("error", JStr(message))]))
  }

  /** The keys of a serialized project, in order. */
  const DictKeys: seq<string> :=
    ["id", "name", "type", "description", "created_date", "questions_answered", "answers", "charts"]

  /** `project_to_dict`: every field except `analysis_content`. */
  function ProjectToDict(p: Project): (d: Json)
    ensures d.JObj? && |d.members| == |DictKeys|
    ensures forall i :: 0 <= i < |DictKeys| ==> d.members[i].0 == DictKeys[i]
    ensures Get(d.members, "analysis_content").None?
  {
    var d := JObj([
      ("id", JNum(p.id)),
      ("name", JStr(p.name)),
      ("type", JStr(Label(p.kind))),
      ("description", JStr(p.description)),
      ("created_date", JStr(IsoFormat(p.createdDate))),
      ("questions_answered", JBool(p.questionsAnswered)),
      ("answers", p.answers),
      ("charts", JObj(p.charts))]);
    GetFindsLastMember(d.members, "analysis_content");
    d
  }

  /** Reads a serialized project back; the analysis content, which is not serialized, is supplied. */
  function ProjectFromDict(d: Json, analysisContent: Json): Option<Project> {
    if !d.JObj? then None
    else
      var ms := d.members;
      var id, name, typeText, description := Arg(ms, "id"), Arg(ms, "name"), Arg(ms, "type"), Arg(ms, "description");
      var date, qa, answers, charts := Arg(ms, "created_date"), Arg(ms, "questions_answered"), Arg(ms, "answers"), Arg(ms, "charts");
      if && id.JNum? && id.n >= 0 && name.JStr? && description.JStr?
         && date.JStr? && ParseIso(date.s).Some? && qa.JBool? && charts.JObj?
         && ParseType(typeText).Known?
      then
        Some(Project(id.n, name.s, ParseType(typeText).kind, description.s, ParseIso(date.s).value,
                     qa.b, answers, charts.members, analysisContent))
      else None
  }

  /** Each key of the serialized row reads back the field it was written from. */
  lemma ProjectToDictLookups(p: Project)
    ensures var ms := ProjectToDict(p).members;
            && Arg(ms, "id") == JNum(p.id) && Arg(ms, "name") == JStr(p.name)
            && Arg(ms, "type") == JStr(Label(p.kind)) && Arg(ms, "description") == JStr(p.description)
            && Arg(ms, "created_date") == JStr(IsoFormat(p.createdDate))
            && Arg(ms, "questions_answered") == JBool(p.questionsAnswered)
            && Arg(ms, "answers") == p.answers && Arg(ms, "charts") == JObj(p.charts)
  {
    var ms := ProjectToDict(p).members;
    forall i | 0 <= i < |ms|
      ensures Get(ms, ms[i].0) == Some(ms[i].1)
    {
      GetUnique(ms, i);
    }
    assert ms[0].0 == "id" && ms[1].0 == "name" && ms[2].0 == "type" && ms[3].0 == "description";
    assert ms[4].0 == "created_date" && ms[5].0 == "questions_answered" && ms[6].0 == "answers" && ms[7].0 == "charts";
  }

  /** Serialization loses exactly the analysis content: reading it back gives the row. */
  lemma ProjectDictRoundTrip(p: Project)
    ensures ProjectFromDict(ProjectToDict(p), p.analysisContent) == Some(p)
  {
    ProjectToDictLookups(p);
    IsoFormatRoundTrip(p.createdDate);
    ParseTypeExactlyLabels(JStr(Label(p.kind)), p.kind);
  }

  /** Two rows serialize alike exactly when they differ at most in their analysis content. */
  lemma ProjectToDictInjective(p: Project, q: Project)
    ensures ProjectToDict(p) == ProjectToDict(q) <==> p.(analysisContent := JNull) == q.(analysisContent := JNull)
  {
    if ProjectToDict(p) == ProjectToDict(q) {
      ProjectDictRoundTrip(p);
      ProjectDictRoundTrip(q);
    }
  }

  function Serialize(ps: seq<Project>): (ds: seq<Json>)
    ensures |ds| == |ps|
    ensures forall i :: 0 <= i < |ps| ==> ds[i] == ProjectToDict(ps[i])
  {
    if ps == [] then [] else Serialize(ps[..|ps| - 1]) + [ProjectToDict(ps[|ps| - 1])]
  }

  /** The rows with an id below `bound`, newest (largest id) first: the table's `-id` ordering. */
  function RowsBelow(rows: map<nat, Project>, bound: nat): (s: seq<Project>)
    ensures forall k :: 0 <= k < |s| ==> s[k].id in rows
  {
    if bound == 0 then []
    else
      var id := bound - 1;
      (if id in rows && rows[id].id == id then [rows[id]] else []) + RowsBelow(rows, id)
  }

  /** Every row's key is its id. */
  ghost predicate KeyedById(rows: map<nat, Project>) {
    forall id :: id in rows ==> rows[id].id == id
  }

  /**
   * `RowsBelow` lists every stored row under the bound once, in strictly
   * descending id order, and nothing else.
   */
  lemma RowsBelowExactlyOnce(rows: map<nat, Project>, bound: nat)
    requires KeyedById(rows)
    ensures var s := RowsBelow(rows, bound);
            && (forall i, j :: 0 <= i < j < |s| ==> s[i].id > s[j].id)
            && (forall p :: p in s ==> p.id < bound && p.id in rows && rows[p.id] == p)
            && (forall id :: id in rows && id < bound ==> rows[id] in s)
  {
    RowsBelowSound(rows, bound);
    RowsBelowDescending(rows, bound);
    RowsBelowComplete(rows, bound);
  }

  lemma {:induction false} RowsBelowSound(rows: map<nat, Project>, bound: nat)
    ensures forall p :: p in RowsBelow(rows, bound) ==> p.id < bound && p.id in rows && rows[p.id] == p
  {
    if bound > 0 {
      var id := bound - 1;
      var head := if id in rows && rows[id].id == id then [rows[id]] else [];
      var tail := RowsBelow(rows, id);
      RowsBelowSound(rows, id);
      var s := RowsBelow(rows, bound);
      assert s == head + tail;
      assert forall p :: p in s ==> p in head || p in tail;
    }
  }

  lemma {:induction false} RowsBelowDescending(rows: map<nat, Project>, bound: nat)
    ensures forall i, j :: 0 <= i < j < |RowsBelow(rows, bound)| ==> RowsBelow(rows, bound)[i].id > RowsBelow(rows, bound)[j].id
  {
    if bound > 0 {
      var id := bound - 1;
      var head := if id in rows && rows[id].id == id then [rows[id]] else [];
      var tail := RowsBelow(rows, id);
      RowsBelowDescending(rows, id);
      RowsBelowBounded(rows, id);
      var s := RowsBelow(rows, bound);
      assert s == head + tail;
      forall i, j | 0 <= i < j < |s|
        ensures s[i].id > s[j].id
      {
        assert s[j] == tail[j - |head|];
        if i >= |head| {
          assert s[i] == tail[i - |head|];
        }
      }
    }
  }

  lemma {:induction false} RowsBelowBounded(rows: map<nat, Project>, bound: nat)
    ensures forall k :: 0 <= k < |RowsBelow(rows, bound)| ==> RowsBelow(rows, bound)[k].id < bound
  {
    if bound > 0 {
      var id := bound - 1;
      var head := if id in rows && rows[id].id == id then [rows[id]] else [];
      var tail := RowsBelow(rows, id);
      RowsBelowBounded(rows, id);
      assert RowsBelow(rows, bound) == head + tail;
    }
  }

  lemma {:induction false} RowsBelowComplete(rows: map<nat, Project>, bound: nat)
    requires KeyedById(rows)
    ensures forall id :: id in rows && id < bound ==> rows[id] in RowsBelow(rows, bound)
  {
    if bound > 0 {
      RowsBelowComplete(rows, bound - 1);
    }
  }

  /** The fields a POST reads from its payload (`payload.get(...)`), each `JNull` when absent. */
  datatype CreateArgs = CreateArgs(name: Json, kind: Json, description: Json, answers: Json, charts: Json)

  function ReadCreateArgs(payload: Members): CreateArgs {
    CreateArgs(Arg(payload, "name"), Arg(payload, "type"), Arg(payload, "description"),
               Arg(payload, "answers"), Arg(payload, "charts"))
  }

  /** The first check a POST payload fails, in the order the view makes them. */
  function CreateError(a: CreateArgs): Option<Response> {
    if Truthy(a.name) && !a.name.JStr? then Some(ServerError)  // `.strip()` of a non-string
    else if !Truthy(a.name) || AllSpace(Python, a.name.s) then Some(ErrorReply(400, NameRequired))
    else match ParseType(a.kind)
      case Unhashable => Some(ServerError)
      case Unknown => Some(ErrorReply(400, InvalidType))
      case Known(_) => None
  }

  /** Python's `value or ''` stored in a text column. */
  function DescriptionText(v: Json, repr: Json -> string): (s: string)
    ensures !Truthy(v) ==> s == ""
    ensures v.JStr? ==> s == v.s
  {
    if Truthy(v) then PyStr(v, repr) else ""
  }

  /** The row a POST payload that passes every check creates. */
  function CreatedRecord(a: CreateArgs, id: nat, today: CalendarDate, repr: Json -> string): Project
    requires CreateError(a).None?
  {
    var answers := if Truthy(a.answers) then a.answers else JArr([]);
    NewProject(id, Trim(Python, a.name.s), ParseType(a.kind).kind, today)
      .(description := DescriptionText(a.description, repr),
        questionsAnswered := Truthy(answers),
        answers := answers,
        charts := if a.charts.JObj? then a.charts.members else [])
  }

  /**
   * What a POST payload yields: the new row with id `id`, today's date, a
   * non-empty stripped name and no analysis content; or the refusal, a 400
   * reply or a 500.
   */
  function CreateResult(a: CreateArgs, id: nat, today: CalendarDate, repr: Json -> string): (r: Result<Project, Response>)
    ensures r.Ok? ==> && r.value.id == id && r.value.createdDate == today
                      && r.value.name != [] && IsTrimmed(Python, r.value.name) && r.value.analysisContent == JNull
    ensures r.Err? ==> r.error == ServerError || (r.error.Reply? && r.error.status == 400)
  {
    match CreateError(a)
    case Some(e) => Err(e)
    case None => Ok(CreatedRecord(a, id, today, repr))
  }

  /** The payload a request body carries, or the response that refuses it. */
  function DecodePayload(body: Body): (r: Result<Members, Response>)
    ensures body == NoBody ==> r == Ok([])
    ensures body == Malformed ==> r == Err(ErrorReply(400, InvalidJson))
    ensures body.Parsed? ==> (r.Ok? <==> body.value.JObj?)
  {
    match body
    case NoBody => Ok([])
    case Malformed => Err(ErrorReply(400, InvalidJson))
    case Parsed(JObj(ms)) => Ok(ms)
    case Parsed(_) => Err(ServerError)  // `.get` on a list, string, number or null
  }

  /** What a POST makes of `body`. */
  function CreateOutcome(body: Body, id: nat, today: CalendarDate, repr: Json -> string): Result<Project, Response> {
    match DecodePayload(body)
    case Err(e) => Err(e)
    case Ok(payload) => CreateResult(ReadCreateArgs(payload), id, today, repr)
  }

  /** A missing, empty or all-whitespace name is refused with the name error, whatever the type. */
  lemma CreateRejectsBlankName(a: CreateArgs, id: nat, today: CalendarDate, repr: Json -> string)
    requires !Truthy(a.name) || (a.name.JStr? && AllSpace(Python, a.name.s))
    ensures CreateResult(a, id, today, repr) == Err(ErrorReply(400, NameRequired))
  {
  }

  /** With a usable name, a type other than the two labels is refused: 400, or 500 for a list or object. */
  lemma CreateRejectsUnknownType(a: CreateArgs, id: nat, today: CalendarDate, repr: Json -> string)
    requires a.name.JStr? && !AllSpace(Python, a.name.s)
    requires a.kind != JStr(Label(GrowBusiness)) && a.kind != JStr(Label(NewMarketEntry))
    ensures CreateResult(a, id, today, repr)
            == Err(if a.kind.JArr? || a.kind.JObj? then ServerError else ErrorReply(400, InvalidType))
  {
    ParseTypeRefusesOthers(a.kind);
  }

  /** A POST succeeds exactly when the name is a string that is not blank and the type is one of the labels. */
  lemma CreateSucceedsIff(a: CreateArgs, id: nat, today: CalendarDate, repr: Json -> string)
    ensures CreateResult(a, id, today, repr).Ok?
        <==> (&& a.name.JStr? && !AllSpace(Python, a.name.s)
              && (a.kind == JStr(Label(GrowBusiness)) || a.kind == JStr(Label(NewMarketEntry))))
  {
    if a.kind == JStr(Label(GrowBusiness)) {
      ParseTypeExactlyLabels(a.kind, GrowBusiness);
    } else if a.kind == JStr(Label(NewMarketEntry)) {
      ParseTypeExactlyLabels(a.kind, NewMarketEntry);
    } else {
      ParseTypeRefusesOthers(a.kind);
    }
  }

  /**
   * A created row carries the trimmed, non-empty name, the given type, today's
   * date, `questions_answered` equal to whether the answers are non-empty, an
   * object for charts (`{}` for anything else) and no analysis content.
   */
  lemma CreatedRecordFields(a: CreateArgs, id: nat, today: CalendarDate, repr: Json -> string)
    requires CreateResult(a, id, today, repr).Ok?
    ensures var p := CreateResult(a, id, today, repr).value;
            && p.id == id && p.createdDate == today
            && p.name == Trim(Python, a.name.s) && p.name != [] && IsTrimmed(Python, p.name)
            && JStr(Label(p.kind)) == a.kind
            && p.questionsAnswered == Truthy(p.answers)
            && (a.answers.JArr? ==> p.answers == a.answers && p.questionsAnswered == (|a.answers.items| > 0))
            && (a.charts.JObj? ==> p.charts == a.charts.members)
            && (!a.charts.JObj? ==> p.charts == [])
            && p.description == DescriptionText(a.description, repr)
            && (Truthy(a.answers) ==> p.answers == a.answers)
            && (!Truthy(a.answers) ==> p.answers == JArr([]))
            && p.analysisContent == JNull
  {
    var p := CreateResult(a, id, today, repr).value;
    ParseTypeExactlyLabels(a.kind, p.kind);
  }

  /**
   * A POST that supplies only a usable name and a type label stores the
   * model's defaults: no description, no answers, `questions_answered` false,
   * `{}` for charts and no analysis content.
   */
  lemma CreateWithDefaults(name: string, t: ProjectType, id: nat, today: CalendarDate, repr: Json -> string)
    requires !AllSpace(Python, name)
    ensures CreateResult(CreateArgs(JStr(name), JStr(Label(t)), JNull, JNull, JNull), id, today, repr)
            == Ok(NewProject(id, Trim(Python, name), t, today))
  {
    ParseTypeExactlyLabels(JStr(Label(t)), t);
  }

  /** The fields a PUT/PATCH reads from its payload (`payload.get(...)`), each `JNull` when absent. */
  datatype PatchArgs = PatchArgs(
    name: Json, kind: Json, description: Json, answers: Json,
    charts: Json, questionsAnswered: Json, createdDate: Json)

  function ReadPatchArgs(payload: Members): PatchArgs {
    PatchArgs(Arg(payload, "name"), Arg(payload, "type"), Arg(payload, "description"), Arg(payload, "answers"),
              Arg(payload, "charts"), Arg(payload, "questions_answered"), Arg(payload, "created_date"))
  }

  /** The first check on the supplied name, type, description and answers that fails. */
  function ContentError(a: PatchArgs): Option<Response> {
    if a.kind != JNull && ParseType(a.kind).Unhashable? then Some(ServerError)
    else if a.kind != JNull && ParseType(a.kind).Unknown? then Some(ErrorReply(400, InvalidType))
    else if a.answers != JNull && AsList(a.answers).None? then Some(ServerError)  // `list()` of a number or boolean
    else None
  }

  /** The first check on the supplied charts, `questions_answered` and creation date that fails. */
  function TrackingError(a: PatchArgs, parseDate: Json -> DateParse): Option<Response> {
    if a.charts != JNull && !a.charts.JObj? then Some(ErrorReply(400, ChartsNotObject))
    else if a.createdDate != JNull && parseDate(a.createdDate).NoMatch? then Some(ErrorReply(400, BadDate))
    else if a.createdDate != JNull && parseDate(a.createdDate).Raises? then Some(ServerError)
    else None
  }

  /** The first check a PUT/PATCH payload fails, in the order the view makes them. */
  function PatchError(a: PatchArgs, parseDate: Json -> DateParse): Option<Response> {
    if ContentError(a).Some? then ContentError(a) else TrackingError(a, parseDate)
  }

  /** Name, type, description and answers replaced where supplied; supplied answers also set `questions_answered`. */
  function WithContent(p: Project, a: PatchArgs, repr: Json -> string): Project
    requires ContentError(a).None?
  {
    var newAnswers := if a.answers != JNull then AsList(a.answers).value else [];
    p.(name := if a.name != JNull then Trim(Python, PyStr(a.name, repr)) else p.name,
       kind := if a.kind != JNull then ParseType(a.kind).kind else p.kind,
       description := if a.description != JNull then DescriptionText(a.description, repr) else p.description,
       answers := if a.answers != JNull then JArr(newAnswers) else p.answers,
       questionsAnswered := if a.answers != JNull then |newAnswers| > 0 else p.questionsAnswered)
  }

  /** Charts, `questions_answered` and creation date replaced where supplied. */
  function WithTracking(p: Project, a: PatchArgs, parseDate: Json -> DateParse): Project
    requires TrackingError(a, parseDate).None?
  {
    p.(charts := if a.charts != JNull then a.charts.members else p.charts,
       questionsAnswered := if a.questionsAnswered != JNull then Truthy(a.questionsAnswered) else p.questionsAnswered,
       createdDate := if a.createdDate != JNull then parseDate(a.createdDate).date else p.createdDate)
  }

  /**
   * The row after a payload that passes every check: each field whose key is
   * present with a non-null value is replaced, every other field is kept.
   * `questions_answered` follows a supplied value, else supplied answers.
   */
  function Patched(p: Project, a: PatchArgs, parseDate: Json -> DateParse, repr: Json -> string): Project
    requires PatchError(a, parseDate).None?
  {
    WithTracking(WithContent(p, a, repr), a, parseDate)
  }

  /**
   * What a PUT/PATCH payload makes of row `p`: the new row, which keeps the
   * id and the analysis content; or the refusal, a 400 reply or a 500.
   */
  function PatchResult(p: Project, a: PatchArgs, parseDate: Json -> DateParse, repr: Json -> string): (r: Result<Project, Response>)
    ensures r.Ok? ==> r.value.id == p.id && r.value.analysisContent == p.analysisContent
    ensures r.Err? ==> r.error == ServerError || (r.error.Reply? && r.error.status == 400)
  {
    match PatchError(a, parseDate)
    case Some(e) => Err(e)
    case None => Ok(Patched(p, a, parseDate, repr))
  }

  /** What a PUT/PATCH makes of row `p` given the request body. */
  function PatchOutcome(p: Project, body: Body, parseDate: Json -> DateParse, repr: Json -> string): Result<Project, Response> {
    match DecodePayload(body)
    case Err(e) => Err(e)
    case Ok(payload) => PatchResult(p, ReadPatchArgs(payload), parseDate, repr)
  }

  /** Whether the update is refused, and how, does not depend on the stored row. */
  lemma PatchRefusalIgnoresRow(p: Project, q: Project, body: Body, parseDate: Json -> DateParse, repr: Json -> string)
    ensures PatchOutcome(p, body, parseDate, repr).Err? <==> PatchOutcome(q, body, parseDate, repr).Err?
    ensures PatchOutcome(p, body, parseDate, repr).Err? ==> PatchOutcome(p, body, parseDate, repr) == PatchOutcome(q, body, parseDate, repr)
  {
  }

  const NoPatchArgs: PatchArgs := PatchArgs(JNull, JNull, JNull, JNull, JNull, JNull, JNull)

  /** An empty body or `{}` changes nothing. */
  lemma PatchEmptyIsIdentity(p: Project, parseDate: Json -> DateParse, repr: Json -> string)
    ensures PatchOutcome(p, NoBody, parseDate, repr) == Ok(p)
    ensures PatchOutcome(p, Parsed(JObj([])), parseDate, repr) == Ok(p)
  {
    assert ReadPatchArgs([]) == NoPatchArgs;
  }

  /**
   * Merge-patch frame: a field whose key is absent or null keeps its value,
   * and the id and the analysis content are never touched.
   */
  lemma PatchKeepsAbsentFields(p: Project, a: PatchArgs, parseDate: Json -> DateParse, repr: Json -> string)
    requires PatchResult(p, a, parseDate, repr).Ok?
    ensures var q := PatchResult(p, a, parseDate, repr).value;
            && q.id == p.id && q.analysisContent == p.analysisContent
            && (a.name == JNull ==> q.name == p.name)
            && (a.kind == JNull ==> q.kind == p.kind)
            && (a.description == JNull ==> q.description == p.description)
            && (a.answers == JNull ==> q.answers == p.answers)
            && (a.charts == JNull ==> q.charts == p.charts)
            && (a.createdDate == JNull ==> q.createdDate == p.createdDate)
            && (a.answers == JNull && a.questionsAnswered == JNull ==> q.questionsAnswered == p.questionsAnswered)
  {
  }

  /**
   * Supplied answers set `questions_answered` to whether they are non-empty,
   * unless `questions_answered` is supplied too, which is applied later and wins.
   */
  lemma PatchQuestionsAnswered(p: Project, a: PatchArgs, parseDate: Json -> DateParse, repr: Json -> string)
    requires PatchResult(p, a, parseDate, repr).Ok?
    ensures var q := PatchResult(p, a, parseDate, repr).value;
            && (a.questionsAnswered != JNull ==> q.questionsAnswered == Truthy(a.questionsAnswered))
            && (a.questionsAnswered == JNull && a.answers != JNull ==> q.questionsAnswered == Truthy(a.answers))
            && (a.answers.JArr? ==> q.answers == a.answers)
  {
    if a.answers != JNull {
      AsListKeepsTruthiness(a.answers);
    }
  }

  /** `{"name": x}` supplies the name and nothing else. */
  lemma ReadSingleName(name: string)
    ensures ReadPatchArgs([("name", JStr(name))]) == NoPatchArgs.(name := JStr(name))
  {
    assert "name"[0] != "type"[0];
    ArgOfSingleMember("name", JStr(name), "name");
    ArgOfSingleMember("name", JStr(name), "type");
    ArgOfSingleMember("name", JStr(name), "description");
    ArgOfSingleMember("name", JStr(name), "answers");
    ArgOfSingleMember("name", JStr(name), "charts");
    ArgOfSingleMember("name", JStr(name), "questions_answered");
    ArgOfSingleMember("name", JStr(name), "created_date");
  }

  /** A name-only update trims the name, accepts an all-whitespace one as `""`, and changes nothing else. */
  lemma PatchNameOnly(p: Project, name: string, parseDate: Json -> DateParse, repr: Json -> string)
    ensures PatchOutcome(p, Parsed(JObj([("name", JStr(name))])), parseDate, repr) == Ok(p.(name := Trim(Python, name)))
    ensures AllSpace(Python, name) ==> PatchOutcome(p, Parsed(JObj([("name", JStr(name))])), parseDate, repr) == Ok(p.(name := ""))
  {
    ReadSingleName(name);
  }

  /** Applying the same update twice gives the same row as applying it once. */
  lemma PatchIdempotent(p: Project, body: Body, parseDate: Json -> DateParse, repr: Json -> string)
    requires PatchOutcome(p, body, parseDate, repr).Ok?
    ensures var q := PatchOutcome(p, body, parseDate, repr).value;
            PatchOutcome(q, body, parseDate, repr) == Ok(q)
  {
  }

  /**
   * Merge-patch, the applied half: every field whose key is supplied with a
   * non-null value holds what the view makes of that value.
   */
  lemma PatchAppliesSuppliedFields(p: Project, a: PatchArgs, parseDate: Json -> DateParse, repr: Json -> string)
    requires PatchResult(p, a, parseDate, repr).Ok?
    ensures var q := PatchResult(p, a, parseDate, repr).value;
            && (a.name != JNull ==> q.name == Trim(Python, PyStr(a.name, repr)))
            && (a.kind != JNull ==> JStr(Label(q.kind)) == a.kind)
            && (a.description != JNull ==> q.description == DescriptionText(a.description, repr))
            && (a.charts != JNull ==> a.charts == JObj(q.charts))
            && (a.createdDate != JNull ==> parseDate(a.createdDate) == DateOk(q.createdDate))
            && (a.answers != JNull ==> q.answers == JArr(AsList(a.answers).value))
  {
    if a.kind != JNull {
      ParseTypeExactlyLabels(a.kind, PatchResult(p, a, parseDate, repr).value.kind);
    }
  }

  /**
   * A supplied `charts` that is not an object refuses the whole update; once
   * the type and answers have passed, the refusal is the 400 charts error.
   */
  lemma PatchRejectsNonObjectCharts(p: Project, a: PatchArgs, parseDate: Json -> DateParse, repr: Json -> string)
    requires a.charts != JNull && !a.charts.JObj?
    ensures PatchResult(p, a, parseDate, repr).Err?
    ensures ContentError(a).None? ==> PatchResult(p, a, parseDate, repr) == Err(ErrorReply(400, ChartsNotObject))
  {
  }

  /**
   * The checks and assignments of a POST, in the view's order, on the
   * payload's fields: the row to insert under `id`, or the refusal.
   */
  method BuildRecord(a: CreateArgs, id: nat, today: CalendarDate, repr: Json -> string)
    returns (r: Result<Project, Response>)
    ensures r == CreateResult(a, id, today, repr)
    ensures r.Ok? ==> r.value.id == id
  {
    if Truthy(a.name) && !a.name.JStr? {
      return Err(ServerError);
    }
    var name := if Truthy(a.name) then Trim(Python, a.name.s) else "";
    var answers := if Truthy(a.answers) then a.answers else JArr([]);
    var charts := if Truthy(a.charts) then a.charts else JObj([]);
    if name == "" {
      return Err(ErrorReply(400, NameRequired));
    }
    var check := ParseType(a.kind);
    if check.Unhashable? {
      return Err(ServerError);
    }
    if check.Unknown? {
      return Err(ErrorReply(400, InvalidType));
    }
    var p := NewProject(id, name, check.kind, today);
    p := p.(description := DescriptionText(a.description, repr),
            questionsAnswered := Truthy(answers),
            answers := answers,
            charts := if charts.JObj? then charts.members else []);
    return Ok(p);
  }

  /**
   * The field assignments of a PUT/PATCH, in the view's order, on a copy of
   * the row: the copy once every supplied field has been applied, or the
   * refusal of the first field that fails its check.
   */
  method ApplyFields(row: Project, a: PatchArgs, parseDate: Json -> DateParse, repr: Json -> string)
    returns (r: Result<Project, Response>)
    ensures r == PatchResult(row, a, parseDate, repr)
    ensures r.Ok? ==> r.value.id == row.id
  {
    var project := row;
    if a.name != JNull {
      project := project.(name := Trim(Python, PyStr(a.name, repr)));
    }
    if a.kind != JNull {
      var check := ParseType(a.kind);
      if check.Unhashable? {
        return Err(ServerError);
      }
      if check.Unknown? {
        return Err(ErrorReply(400, InvalidType));
      }
      project := project.(kind := check.kind);
    }
    if a.description != JNull {
      project := project.(description := DescriptionText(a.description, repr));
    }
    if a.answers != JNull {
      var items := AsList(a.answers);
      if items.None? {
        return Err(ServerError);
      }
      project := project.(answers := JArr(items.value));
      project := project.(questionsAnswered := |items.value| > 0);
    }
    assert project == WithContent(row, a, repr);
    r := ApplyTrackingFields(project, a, parseDate);
  }

  /** The remaining assignments of a PUT/PATCH: charts, `questions_answered`, creation date. */
  method ApplyTrackingFields(row: Project, a: PatchArgs, parseDate: Json -> DateParse)
    returns (r: Result<Project, Response>)
    ensures TrackingError(a, parseDate).Some? ==> r == Err(TrackingError(a, parseDate).value)
    ensures TrackingError(a, parseDate).None? ==> r == Ok(WithTracking(row, a, parseDate))
  {
    var project := row;
    if a.charts != JNull {
      if !a.charts.JObj? {
        return Err(ErrorReply(400, ChartsNotObject));
      }
      project := project.(charts := a.charts.members);
    }
    if a.questionsAnswered != JNull {
      project := project.(questionsAnswered := Truthy(a.questionsAnswered));
    }
    if a.createdDate != JNull {
      var dt := parseDate(a.createdDate);
      if dt.NoMatch? {
        return Err(ErrorReply(400, BadDate));
      }
      if dt.Raises? {
        return Err(ServerError);
      }
      project := project.(createdDate := dt.date);
    }
    return Ok(project);
  }

  /** The project table: rows keyed by id, and the id the next insert receives. */
  class ProjectStore {
    var rows: map<nat, Project>
    var nextId: nat

    ghost predicate Valid()
      reads this
    {
      && 1 <= nextId
      && KeyedById(rows)
      && forall id :: id in rows ==> 1 <= id < nextId
    }

    constructor ()
      ensures Valid() && rows == map[] && nextId == 1
    {
      rows := map[];
      nextId := 1;
    }

    /** `Project.objects.all()`: every row, newest first. */
    method Ordered() returns (all: seq<Project>)
      requires Valid()
      ensures all == RowsBelow(rows, nextId)
    {
      all := [];
      var i := nextId;
      while i > 0
        invariant 0 <= i <= nextId
        invariant all + RowsBelow(rows, i) == RowsBelow(rows, nextId)
      {
        i := i - 1;
        ghost var rest := RowsBelow(rows, i);
        if i in rows {
          assert RowsBelow(rows, i + 1) == [rows[i]] + rest;
          assert (all + [rows[i]]) + rest == all + ([rows[i]] + rest);
          all := all + [rows[i]];
        } else {
          assert RowsBelow(rows, i + 1) == rest;
        }
      }
    }

    /** GET on the collection: `{"results": [...]}` with every row serialized, newest first. */
    method List() returns (resp: Response)
      requires Valid()
      ensures resp == Reply(200, JObj([("results", JArr(Serialize(RowsBelow(rows, nextId))))]))
    {
      var all := Ordered();
      resp := Reply(200, JObj([("results", JArr(Serialize(all)))]));
    }

    /** POST on the collection: validate, then insert one row under a fresh id. */
    method Create(body: Body, today: CalendarDate, repr: Json -> string) returns (resp: Response)
      requires Valid()
      modifies this
      ensures Valid()
      ensures old(nextId) !in old(rows)
      ensures match CreateOutcome(body, old(nextId), today, repr)
              case Ok(p) =>
                rows == old(rows)[old(nextId) := p] && nextId == old(nextId) + 1 && resp == Reply(201, ProjectToDict(p))
              case Err(e) =>
                rows == old(rows) && nextId == old(nextId) && resp == e
    {
      var decoded := DecodePayload(body);
      if decoded.Err? {
        return decoded.error;
      }
      var a := ReadCreateArgs(decoded.value);
      var record := BuildRecord(a, nextId, today, repr);
      if record.Err? {
        return record.error;
      }
      Insert(record.value);
      resp := Reply(201, ProjectToDict(record.value));
    }

    /** `Project.objects.create(...)`: stores `p` under the next id. */
    method Insert(p: Project)
      requires Valid() && p.id == nextId
      modifies this
      ensures Valid()
      ensures rows == old(rows)[old(nextId) := p] && nextId == old(nextId) + 1
    {
      rows := rows[nextId := p];
      nextId := nextId + 1;
    }

    /** `project.save()` on a stored row: the row with that id is replaced. */
    method Save(p: Project)
      requires Valid() && p.id in rows
      modifies this`rows
      ensures Valid()
      ensures rows == old(rows)[p.id := p]
    {
      rows := rows[p.id := p];
    }

    /** GET on an existing row. */
    method Retrieve(id: nat) returns (resp: Response)
      requires Valid() && id in rows
      ensures resp == Reply(200, ProjectToDict(rows[id]))
    {
      resp := Reply(200, ProjectToDict(rows[id]));
    }

    /**
     * PUT/PATCH on an existing row: the fields are assigned one by one on a
     * copy and the copy is saved only after every check has passed.
     */
    method Update(id: nat, body: Body, parseDate: Json -> DateParse, repr: Json -> string) returns (resp: Response)
      requires Valid() && id in rows
      modifies this
      ensures Valid() && nextId == old(nextId)
      ensures match PatchOutcome(old(rows)[id], body, parseDate, repr)
              case Ok(q) => rows == old(rows)[id := q] && resp == Reply(200, ProjectToDict(q))
              case Err(e) => rows == old(rows) && resp == e
    {
      var decoded := DecodePayload(body);
      if decoded.Err? {
        return decoded.error;
      }
      var a := ReadPatchArgs(decoded.value);
      var updated := ApplyFields(rows[id], a, parseDate, repr);
      if updated.Err? {
        return updated.error;
      }
      Save(updated.value);
      resp := Reply(200, ProjectToDict(updated.value));
    }

    /** DELETE on an existing row. */
    method Delete(id: nat) returns (resp: Response)
      requires Valid() && id in rows
      modifies this
      ensures Valid() && nextId == old(nextId)
      ensures rows == old(rows) - {id} && id !in rows
      ensures resp == Reply(200, JObj([("success", JBool(true))]))
    {
      rows := rows - {id};
      resp := Reply(200, JObj([("success", JBool(true))]));
    }

    /** `api_projects`: GET lists, POST creates, any other method is refused with 405. */
    method ApiProjects(m: Method, body: Body, today: CalendarDate, repr: Json -> string) returns (resp: Response)
      requires Valid()
      modifies this
      ensures Valid()
      ensures m == GET ==> rows == old(rows) && nextId == old(nextId)
                           && resp == Reply(200, JObj([("results", JArr(Serialize(RowsBelow(rows, nextId))))]))
      ensures m == POST ==>
                match CreateOutcome(body, old(nextId), today, repr)
                case Ok(p) => rows == old(rows)[old(nextId) := p] && nextId == old(nextId) + 1 && resp == Reply(201, ProjectToDict(p))
                case Err(e) => rows == old(rows) && nextId == old(nextId) && resp == e
      ensures m != GET && m != POST ==>
                rows == old(rows) && nextId == old(nextId) && resp == ErrorReply(405, NotAllowed)
    {
      if m == GET {
        resp := List();
      } else if m == POST {
        resp := Create(body, today, repr);
      } else {
        resp := ErrorReply(405, NotAllowed);
      }
    }

    /**
     * `api_project_detail`: an unknown id is a 404 whatever the method; then
     * GET retrieves, PUT/PATCH update, DELETE deletes, anything else is 405.
     */
    method ApiProjectDetail(id: nat, m: Method, body: Body, parseDate: Json -> DateParse, repr: Json -> string)
      returns (resp: Response)
      requires Valid()
      modifies this
      ensures Valid() && nextId == old(nextId)
      ensures id !in old(rows) ==> resp == NotFound && rows == old(rows)
      ensures id in old(rows) && m == GET ==> resp == Reply(200, ProjectToDict(old(rows)[id])) && rows == old(rows)
      ensures id in old(rows) && (m == PUT || m == PATCH) ==>
                match PatchOutcome(old(rows)[id], body, parseDate, repr)
                case Ok(q) => rows == old(rows)[id := q] && resp == Reply(200, ProjectToDict(q))
                case Err(e) => rows == old(rows) && resp == e
      ensures id in old(rows) && m == DELETE ==>
                rows == old(rows) - {id} && resp == Reply(200, JObj([("success", JBool(true))]))
      ensures id in old(rows) && m !in {GET, PUT, PATCH, DELETE} ==>
                rows == old(rows) && resp == ErrorReply(405, NotAllowed)
    {
      if id !in rows {
        return NotFound;
      }
      if m == GET {
        resp := Retrieve(id);
      } else if m == PUT || m == PATCH {
        resp := Update(id, body, parseDate, repr);
      } else if m == DELETE {
        resp := Delete(id);
      } else {
        resp := ErrorReply(405, NotAllowed);
      }
    }

    /** Once a row is deleted, every later request on its id is a 404. */
    method DeleteThenRequest(id: nat, m: Method, body: Body, parseDate: Json -> DateParse, repr: Json -> string)
      returns (first: Response, second: Response)
      requires Valid() && id in rows
      modifies this
      ensures Valid() && rows == old(rows) - {id}
      ensures first == Reply(200, JObj([("success", JBool(true))]))
      ensures second == NotFound
    {
      first := ApiProjectDetail(id, DELETE, body, parseDate, repr);
      second := ApiProjectDetail(id, m, body, parseDate, repr);
    }
  }
}
