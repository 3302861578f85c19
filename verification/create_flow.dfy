/**
 * The browser's creation request meets the server's POST handler: the body
 * the questionnaire posts passes every check of the view, and the row it
 * creates carries what was drafted.
 */
module CreateFlow {
  import opened Wrappers
  import opened Text
  import opened JsonValues
  import opened Models
  import opened Views
  import opened FrontEnd

  /** The server reads back each field the browser put in the creation body; an unset draft field reads as null. */
  lemma ReadBrowserPayload(draft: Draft, answers: seq<string>, charts: Members)
    ensures ReadCreateArgs(CreatePayload(draft, answers, JObj(charts)).members)
            == CreateArgs(OrNull(draft.name), OrNull(draft.kind), OrNull(draft.description),
                          JArr(Strings(answers)), JObj(charts))
  {
    var payload := CreatePayload(draft, answers, JObj(charts));
    assert Arg(payload.members, "name") == OrNull(draft.name);
  }

  /**
   * A name that is not blank to Python and one of the two type labels create
   * a row with the stripped name, the given type, the description or "" when
   * there is none, the answers as a JSON list, `questions_answered` set
   * exactly when some question was answered, and the charts object.
   */
  lemma StringArgsAccepted(name: string, kind: string, description: Option<string>, answers: seq<string>,
                           charts: Members, id: nat, today: CalendarDate, repr: Json -> string)
    requires !AllSpace(Python, name)
    requires kind == Label(GrowBusiness) || kind == Label(NewMarketEntry)
    ensures var r := CreateResult(CreateArgs(JStr(name), JStr(kind), OrNull(description), JArr(Strings(answers)), JObj(charts)),
                                  id, today, repr);
            && r.Ok?
            && r.value.id == id && r.value.createdDate == today
            && r.value.name == Trim(Python, name) && Label(r.value.kind) == kind
            && r.value.description == (if description.Some? then description.value else "")
            && r.value.answers == JArr(Strings(answers))
            && r.value.questionsAnswered == (answers != [])
            && r.value.charts == charts
            && r.value.analysisContent == JNull
  {
    var a := CreateArgs(JStr(name), JStr(kind), OrNull(description), JArr(Strings(answers)), JObj(charts));
    CreateSucceedsIff(a, id, today, repr);
    CreatedRecordFields(a, id, today, repr);
  }

  /**
   * The body the questionnaire posts is accepted exactly when the drafted
   * name is not blank to Python and the drafted type is one of the two labels.
   */
  lemma BrowserCreationSucceedsIff(draft: Draft, answers: seq<string>, charts: Members,
                                   id: nat, today: CalendarDate, repr: Json -> string)
    ensures CreateOutcome(Parsed(CreatePayload(draft, answers, JObj(charts))), id, today, repr).Ok?
            <==> && draft.name.Some? && !AllSpace(Python, draft.name.value)
                 && (draft.kind == Some(Label(GrowBusiness)) || draft.kind == Some(Label(NewMarketEntry)))
  {
    var a := CreateArgs(OrNull(draft.name), OrNull(draft.kind), OrNull(draft.description), JArr(Strings(answers)), JObj(charts));
    var body := CreatePayload(draft, answers, JObj(charts));
    ReadBrowserPayload(draft, answers, charts);
    assert DecodePayload(Parsed(body)) == Ok(body.members);
    CreateSucceedsIff(a, id, today, repr);
    assert a.name.JStr? <==> draft.name.Some?;
    assert a.kind == JStr(Label(GrowBusiness)) <==> draft.kind == Some(Label(GrowBusiness));
    assert a.kind == JStr(Label(NewMarketEntry)) <==> draft.kind == Some(Label(NewMarketEntry));
  }

  /**
   * An accepted creation body stores the name stripped by Python, the drafted
   * type and description, the answers as a JSON list, `questions_answered`
   * set exactly when some question was answered, and the charts snapshot.
   */
  lemma BrowserCreationAccepted(draft: Draft, answers: seq<string>, charts: Members,
                                id: nat, today: CalendarDate, repr: Json -> string)
    requires draft.name.Some? && !AllSpace(Python, draft.name.value)
    requires draft.kind == Some(Label(GrowBusiness)) || draft.kind == Some(Label(NewMarketEntry))
    ensures var r := CreateOutcome(Parsed(CreatePayload(draft, answers, JObj(charts))), id, today, repr);
            && r.Ok?
            && r.value.id == id && r.value.createdDate == today
            && r.value.name == Trim(Python, draft.name.value)
            && Some(Label(r.value.kind)) == draft.kind
            && r.value.description == (if draft.description.Some? then draft.description.value else "")
            && r.value.answers == JArr(Strings(answers))
            && r.value.questionsAnswered == (answers != [])
            && r.value.charts == charts
            && r.value.analysisContent == JNull
  {
    DraftedBodyReadsAsStrings(draft, answers, charts, id, today, repr);
    StringArgsAccepted(draft.name.value, draft.kind.value, draft.description, answers, charts, id, today, repr);
  }

  /** With the name and type drafted, the POST sees them as strings. */
  lemma DraftedBodyReadsAsStrings(draft: Draft, answers: seq<string>, charts: Members,
                                  id: nat, today: CalendarDate, repr: Json -> string)
    requires draft.name.Some? && draft.kind.Some?
    ensures CreateOutcome(Parsed(CreatePayload(draft, answers, JObj(charts))), id, today, repr)
            == CreateResult(CreateArgs(JStr(draft.name.value), JStr(draft.kind.value), OrNull(draft.description),
                                       JArr(Strings(answers)), JObj(charts)), id, today, repr)
  {
    var body := CreatePayload(draft, answers, JObj(charts));
    ReadBrowserPayload(draft, answers, charts);
    assert OrNull(draft.name) == JStr(draft.name.value) && OrNull(draft.kind) == JStr(draft.kind.value);
    assert DecodePayload(Parsed(body)) == Ok(body.members);
  }

  /**
   * The browser and the server disagree on blank names: JavaScript's `trim()`
   * keeps the unit separator U+001F, so the questionnaire accepts a name made
   * of it, but Python's `strip()` removes it and the POST is refused.
   */
  lemma UnitSeparatorNameRefused(kind: ProjectType, id: nat, today: CalendarDate, repr: Json -> string)
    ensures Trim(JavaScript, "\U{001F}") == "\U{001F}"
    ensures CreateResult(CreateArgs(JStr("\U{001F}"), JStr(Label(kind)), JNull, JNull, JNull), id, today, repr)
            == Err(ErrorReply(400, NameRequired))
  {
    TrimOfTrimmed(JavaScript, "\U{001F}");
  }
}
