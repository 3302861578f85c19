/**
 * The stored records: a `Project` row and the `ApiKeys` row, their field
 * domains, defaults and string form.
 */
module Models {
  import opened Wrappers
  import opened Text
  import opened JsonValues

  /** Declared column widths. */
  const TypeMaxLength: nat := 32
  const ApiKeyMaxLength: nat := 128

  /** The two allowed values of a project's `type`. */
  datatype ProjectType = GrowBusiness | NewMarketEntry

  /** The stored (and displayed) text of a project type. */
  function Label(t: ProjectType): (s: string)
    ensures 0 < |s| <= TypeMaxLength
  {
    match t
    case GrowBusiness => "Grow a Business"
    case NewMarketEntry => "New Market Entry"
  }

  /** Outcome of the membership test `value in dict(PROJECT_TYPE_CHOICES)`. */
  datatype TypeCheck = Known(kind: ProjectType) | Unknown | Unhashable

  /**
   * Classifies a payload's `type`: a string equal to one of the two labels
   * is known; a list or an object cannot be hashed, so Python raises; any
   * other value is simply not a member.
   */
  function ParseType(v: Json): (r: TypeCheck)
    ensures r.Unhashable? <==> v.JArr? || v.JObj?
  {
    match v
    case JStr(s) =>
      if s == Label(GrowBusiness) then Known(GrowBusiness)
      else if s == Label(NewMarketEntry) then Known(NewMarketEntry)
      else Unknown
    case JArr(_) => Unhashable
    case JObj(_) => Unhashable
    case _ => Unknown
  }

  /** The type domain is exactly the two labels: a value is accepted if and only if it is one of them. */
  lemma ParseTypeExactlyLabels(v: Json, t: ProjectType)
    ensures ParseType(v) == Known(t) <==> v == JStr(Label(t))
  {
  }

  /** Any value that is not one of the two label strings is refused. */
  lemma ParseTypeRefusesOthers(v: Json)
    requires v != JStr(Label(GrowBusiness)) && v != JStr(Label(NewMarketEntry))
    ensures !ParseType(v).Known?
  {
    if ParseType(v).Known? {
      ParseTypeExactlyLabels(v, ParseType(v).kind);
    }
  }

  /** A calendar date as Python's `datetime.date` holds it. */
  datatype Date = Date(year: int, month: int, day: int)

  /** A proleptic Gregorian leap year, as `datetime` counts them. */
  predicate IsLeapYear(year: int) {
    year % 4 == 0 && (year % 100 != 0 || year % 400 == 0)
  }

  /** The number of days in `month` of `year`; `datetime.date` refuses any later day. */
  function DaysInMonth(year: int, month: int): (n: int)
    requires 1 <= month <= 12
    ensures 28 <= n <= 31
    ensures n == 29 <==> month == 2 && IsLeapYear(year)
  {
    if month == 2 then (if IsLeapYear(year) then 29 else 28)
    else if month in {4, 6, 9, 11} then 30
    else 31
  }

  type CalendarDate = d: Date | 1 <= d.year <= 9999 && 1 <= d.month <= 12 && 1 <= d.day <= DaysInMonth(d.year, d.month)
    witness Date(1, 1, 1)

  /** `date.isoformat()`: `YYYY-MM-DD`. */
  function IsoFormat(d: CalendarDate): (s: string)
    ensures |s| == 10 && s[4] == '-' && s[7] == '-'
  {
    FixedDigits(d.year, 4) + "-" + FixedDigits(d.month, 2) + "-" + FixedDigits(d.day, 2)
  }

  predicate AllDigits(s: string) {
    forall i :: 0 <= i < |s| ==> IsDigit(s[i])
  }

  /** Reads a `YYYY-MM-DD` string back into a date. */
  function ParseIso(s: string): (r: Option<CalendarDate>)
    ensures r.Some? ==> |s| == 10
  {
    if |s| == 10 && s[4] == '-' && s[7] == '-'
       && AllDigits(s[..4]) && AllDigits(s[5..7]) && AllDigits(s[8..])
    then
      var d := Date(DigitsValue(s[..4]), DigitsValue(s[5..7]), DigitsValue(s[8..]));
      if 1 <= d.year && 1 <= d.month <= 12 && 1 <= d.day <= DaysInMonth(d.year, d.month) then Some(d) else None
    else None
  }

  lemma {:induction false} IsoFormatRoundTrip(d: CalendarDate)
    ensures ParseIso(IsoFormat(d)) == Some(d)
  {
    var y, m, dd := FixedDigits(d.year, 4), FixedDigits(d.month, 2), FixedDigits(d.day, 2);
    DashedFields(y, m, dd);
    assert Pow10(2) == 100 && Pow10(4) == 10000;
    FixedDigitsRoundTrip(d.year, 4);
    FixedDigitsRoundTrip(d.month, 2);
    FixedDigitsRoundTrip(d.day, 2);
  }

  /** The three fields of a `YYYY-MM-DD` string sit at fixed positions. */
  lemma DashedFields(y: string, m: string, dd: string)
    requires |y| == 4 && |m| == 2 && |dd| == 2
    ensures var s := y + "-" + m + "-" + dd;
            |s| == 10 && s[4] == '-' && s[7] == '-' && s[..4] == y && s[5..7] == m && s[8..] == dd
  {
    var s := y + "-" + m + "-" + dd;
    assert s[..4] == y;
    assert s[5..7] == m;
    assert s[8..] == dd;
  }

  /**
   * A project row. `description` is the field the views read and write;
   * `answers` and `analysisContent` are JSON columns and may hold any JSON
   * value, `charts` is a JSON object.
   */
  datatype Project = Project(
    id: nat,
    name: string,
    kind: ProjectType,
    description: string,
    createdDate: CalendarDate,
    questionsAnswered: bool,
    answers: Json,
    charts: Members,
    analysisContent: Json)

  /** A new row with every field that has a default left at it. */
  function NewProject(id: nat, name: string, kind: ProjectType, createdDate: CalendarDate): (p: Project)
    ensures p.id == id && p.name == name && p.kind == kind && p.createdDate == createdDate
    ensures !p.questionsAnswered && p.answers == JArr([]) && p.charts == [] && p.analysisContent == JNull
    ensures p.description == ""
  {
    Project(id, name, kind, "", createdDate, false, JArr([]), [], JNull)
  }

  /** `Project.__str__`: `"<name> (<type>)"`. */
  function Display(p: Project): (s: string)
    ensures |s| == |p.name| + |Label(p.kind)| + 3
    ensures s[..|p.name|] == p.name
    ensures s[|p.name|..|p.name| + 2] == " ("
    ensures s[|p.name| + 2..|s| - 1] == Label(p.kind)
    ensures s[|s| - 1] == ')'
  {
    p.name + " (" + Label(p.kind) + ")"
  }

  /** The kind of a project can be read back from its string form. */
  lemma DisplayDeterminesKind(p: Project, q: Project)
    requires |p.name| == |q.name| && Display(p) == Display(q)
    ensures p.kind == q.kind && p.name == q.name
  {
    assert Label(p.kind) == Label(q.kind);
  }

  /** The `ApiKeys` row: three independently optional secrets, with no link to a project. */
  datatype ApiKeys = ApiKeys(instagram: Option<string>, youtube: Option<string>, flipkart: Option<string>)

  predicate FitsColumn(v: Option<string>) {
    v.None? || |v.value| <= ApiKeyMaxLength
  }

  predicate ApiKeysFitColumns(k: ApiKeys) {
    FitsColumn(k.instagram) && FitsColumn(k.youtube) && FitsColumn(k.flipkart)
  }

  /** A new `ApiKeys` row holds no secret. */
  function NoApiKeys(): (k: ApiKeys)
    ensures k.instagram.None? && k.youtube.None? && k.flipkart.None?
    ensures ApiKeysFitColumns(k)
  {
    ApiKeys(None, None, None)
  }
}
