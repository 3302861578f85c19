/**
 * The browser side: the fixed analysis and statistics data, the chart
 * configuration and the charts snapshot derived from them, API-key masking,
 * and the state of the single-page application object (the creation
 * questionnaire, the API-key gate and the local project list).
 */
module FrontEnd {
  import opened Wrappers
  import opened Text
  import opened JsonValues

  /** The data behind one chart: labels, integer values and optional colours. */
  datatype ChartData = ChartData(labels: seq<string>, data: seq<int>, colors: Option<seq<string>>)

  /** One entry of the analysis shown after each answer. */
  datatype AnalysisItem = AnalysisItem(title: string, content: string, chartType: string, chartData: ChartData)

  /** The five fixed analysis entries, one per question. */
  const AnalysisData: seq<AnalysisItem> :=
    [TargetMarketItem, ProductPortfolioItem, MarketingStrategyItem, ChallengePriorityItem, GrowthProjectionItem]

  const TargetMarketItem: AnalysisItem :=
    AnalysisItem(
      "Target Market Analysis",
      TargetMarketText,
      "pie",
      ChartData(["Millennials (25-35)", "Gen-Z (18-24)", "Gen-X (36-50)"], [45, 30, 25],
                Some(["#1FB8CD", "#FFC185", "#B4413C"])))

  const ProductPortfolioItem: AnalysisItem :=
    AnalysisItem(
      "Product Portfolio Analysis",
      ProductPortfolioText,
      "bar",
      ChartData(["Premium", "Mid-range", "Budget"], [60, 25, 15],
                Some(["#1FB8CD", "#FFC185", "#B4413C"])))

  const MarketingStrategyItem: AnalysisItem :=
    AnalysisItem(
      "Marketing Strategy Assessment",
      MarketingStrategyText,
      "line",
      ChartData(["Instagram", "Facebook", "YouTube", "Google Ads"], [40, 30, 20, 10],
                Some(["#1FB8CD"])))

  const ChallengePriorityItem: AnalysisItem :=
    AnalysisItem(
      "Challenge Priority Matrix",
      ChallengePriorityText,
      "bar",
      ChartData(["Supply Chain", "Digital Transform", "Customer Retention", "Competition", "Funding"], [85, 75, 70, 60, 45],
                Some(["#1FB8CD", "#FFC185", "#B4413C", "#ECEBD5", "#5D878F"])))

  const GrowthProjectionItem: AnalysisItem :=
    AnalysisItem(
      "Growth Projection Analysis",
      GrowthProjectionText,
      "line",
      ChartData(["Q1", "Q2", "Q3", "Q4"], [15, 25, 35, 45],
                Some(["#1FB8CD"])))


  /**
   * The texts of the five analysis entries. Each is written as short pieces
   * joined with `+`, which the verifier handles far more cheaply than one
   * long literal; the joined text is the one the page shows.
   */
  const TargetMarketText: string :=
    "Based on your target market, we've "
    + "identified 3 key customer segments with "
    + "high growth potential. The primary "
    + "segment (45%) consists of millennials "
    + "aged 25-35 with disposable income. "
    + "Secondary segment (30%) includes Gen-Z "
    + "consumers who prioritize sustainability."

  const ProductPortfolioText: string :=
    "Your product mix shows strong diversity "
    + "across 3 categories. Premium products "
    + "contribute 60% of revenue despite being "
    + "20% of volume. Consider expanding "
    + "premium line based on market demand."

  const MarketingStrategyText: string :=
    "Current marketing channels show "
    + "Instagram leading with 40% engagement, "
    + "followed by Facebook at 30%. YouTube "
    + "content marketing shows 3x higher "
    + "conversion rates. Recommend increasing "
    + "video content budget by 25%."

  const ChallengePriorityText: string :=
    "Main challenges ranked by impact and "
    + "urgency. Supply chain optimization "
    + "ranks highest priority. Digital "
    + "transformation and customer retention "
    + "follow. Recommend addressing top 3 "
    + "challenges in Q1 2025."

  const GrowthProjectionText: string :=
    "12-month growth targets are achievable "
    + "with 73% confidence based on market "
    + "trends. Revenue projection shows 35% "
    + "YoY growth potential. Key milestones "
    + "include Q1 product launch, Q2 market "
    + "expansion, Q3 scaling operations."

  /** The five questions of the creation questionnaire. */
  const Questions: seq<string> := [
    "What is your target market and customer base?",
    "What are your main products or services?",
    "What is your current marketing strategy?",
    "What are your main business challenges?",
    "What are your growth objectives for the next 12 months?"
  ]

  /** The palette a chart falls back to when its data names no colours. */
  const BaseColors: seq<string> := ["#1FB8CD", "#FFC185", "#B4413C", "#ECEBD5", "#5D878F"]

  /** `key.slice(-n)`: the last `n` characters, or the whole key when it is shorter. */
  function Last(key: string, n: nat): (r: string)
    ensures |r| == if |key| < n then |key| else n
    ensures r == key[|key| - |r|..]
  {
    if |key| < n then key else key[|key| - n..]
  }

  /**
   * How a key is displayed: a key of at most six characters becomes
   * asterisks followed by its last two characters (or fewer, when shorter);
   * a longer key keeps its first three and last three characters around
   * three asterisks.
   */
  function MaskKey(key: string): (r: string)
    ensures |key| <= 6 ==> |r| == |key|
    ensures |key| <= 6 ==> forall i :: 0 <= i < |key| - 2 ==> r[i] == '*'
    ensures |key| <= 6 && |key| >= 2 ==> r[|key| - 2..] == key[|key| - 2..]
    ensures |key| < 2 ==> r == key
    ensures |key| > 6 ==> |r| == 9 && r[..3] == key[..3] && r[3..6] == "***" && r[6..] == key[|key| - 3..]
  {
    if |key| <= 6 then
      Repeat('*', if |key| >= 2 then |key| - 2 else 0) + Last(key, 2)
    else
      key[..3] + "***" + Last(key, 3)
  }

  /**
   * The mask shows nothing but the ends of the key: keys of the same length
   * that agree on their first three and last three characters (on their last
   * two, when at most six long) are masked alike.
   */
  lemma MaskDependsOnlyOnEnds(k1: string, k2: string)
    requires |k1| == |k2|
    requires |k1| <= 6 ==> Last(k1, 2) == Last(k2, 2)
    requires |k1| > 6 ==> k1[..3] == k2[..3] && Last(k1, 3) == Last(k2, 3)
    ensures MaskKey(k1) == MaskKey(k2)
  {
    if |k1| <= 6 {
      MaskShortKey(k1);
      MaskShortKey(k2);
    } else {
      MaskLongKey(k1);
      MaskLongKey(k2);
    }
  }

  lemma MaskShortKey(key: string)
    requires |key| <= 6
    ensures MaskKey(key) == Repeat('*', if |key| >= 2 then |key| - 2 else 0) + Last(key, 2)
  {
  }

  lemma MaskLongKey(key: string)
    requires |key| > 6
    ensures MaskKey(key) == key[..3] + "***" + Last(key, 3)
  {
  }

  /** The dataset part of a chart configuration. */
  datatype Dataset = Dataset(data: seq<int>, backgroundColor: seq<string>, borderColor: seq<string>, borderWidth: nat, fill: bool)

  /** A y axis that starts at zero (`scales.y.beginAtZero`). */
  datatype YAxis = YAxis(beginAtZero: bool)

  /** The configuration handed to the chart library. */
  datatype ChartConfig = ChartConfig(
    kind: string,
    labels: seq<string>,
    datasets: seq<Dataset>,
    responsive: bool,
    maintainAspectRatio: bool,
    legendDisplay: bool,
    yAxis: Option<YAxis>)

  predicate IsRound(chartType: string) {
    chartType == "pie" || chartType == "doughnut"
  }

  /**
   * The chart configuration for one analysis entry: its labels and values
   * in one dataset coloured with its colours (the base palette when it has
   * none), a legend only for round charts, a zero-based y axis for every
   * chart but round and radar ones, and no fill under a line.
   */
  function ChartConfigFor(item: AnalysisItem): (c: ChartConfig)
    ensures c.kind == item.chartType && c.labels == item.chartData.labels
    ensures |c.datasets| == 1 && c.datasets[0].data == item.chartData.data
    ensures c.datasets[0].backgroundColor == c.datasets[0].borderColor
    ensures item.chartData.colors.Some? ==> c.datasets[0].backgroundColor == item.chartData.colors.value
    ensures item.chartData.colors.None? ==> c.datasets[0].backgroundColor == BaseColors
    ensures c.datasets[0].borderWidth == 2 && c.responsive && !c.maintainAspectRatio
    ensures c.datasets[0].fill <==> item.chartType != "line"
    ensures c.legendDisplay <==> IsRound(item.chartType)
    ensures c.yAxis.Some? <==> !IsRound(item.chartType) && item.chartType != "radar"
    ensures c.yAxis.Some? ==> c.yAxis.value.beginAtZero
  {
    var colors := if item.chartData.colors.Some? then item.chartData.colors.value else BaseColors;
    ChartConfig(
      item.chartType,
      item.chartData.labels,
      [Dataset(item.chartData.data, colors, colors, 2, item.chartType != "line")],
      true,
      false,
      item.chartType == "pie" || item.chartType == "doughnut",
      if item.chartType != "pie" && item.chartType != "doughnut" && item.chartType != "radar"
      then Some(YAxis(true)) else None)
  }

  /** A chart never has both a legend and a y axis. */
  lemma LegendExcludesAxis(item: AnalysisItem)
    ensures !(ChartConfigFor(item).legendDisplay && ChartConfigFor(item).yAxis.Some?)
  {
  }

  /**
   * The charts of the fixed analysis: the pie chart has a legend and no
   * axis, the bar and line charts a zero-based axis and no legend, and only
   * the line charts are unfilled; each uses its own colours.
   */
  lemma AnalysisChartConfigs()
    ensures forall i :: 0 <= i < |AnalysisData| ==>
              var c := ChartConfigFor(AnalysisData[i]);
              && (c.legendDisplay <==> i == 0)
              && (c.yAxis.Some? <==> i != 0)
              && (c.datasets[0].fill <==> i != 2 && i != 4)
              && c.datasets[0].backgroundColor == AnalysisData[i].chartData.colors.value
  {
    assert "pie" != "bar" by {
      assert "pie"[0] != "bar"[0];
    }
  }

  /** The fixed analysis has one entry per question, with chart types pie, bar, line, bar, line. */
  lemma AnalysisChartTypes()
    ensures |AnalysisData| == |Questions| == 5
    ensures AnalysisData[0].chartType == "pie" && AnalysisData[1].chartType == "bar"
    ensures AnalysisData[2].chartType == "line" && AnalysisData[3].chartType == "bar"
    ensures AnalysisData[4].chartType == "line"
  {
  }

  /** One product line in the sales statistics. */
  datatype Product = Product(name: string, sales: int, growth: string)

  /** One social platform in the marketing statistics. */
  datatype Platform = Platform(name: string, reach: int, engagement: string, conversion: string)

  /** One past campaign in the marketing statistics. */
  datatype Campaign = Campaign(name: string, roi: int, spent: int, revenue: int)

  /** One age band of the customer segments. */
  datatype AgeGroup = AgeGroup(range: string, percentage: int, value: int)

  /** One gender share of the customer segments. */
  datatype GenderShare = GenderShare(kind: string, percentage: int, value: int)

  /** The statistics shown on a project's statistics tab. */
  datatype Statistics = Statistics(
    revenue: seq<int>, months: seq<string>, products: seq<Product>,
    platforms: seq<Platform>, campaigns: seq<Campaign>,
    ageGroups: seq<AgeGroup>, gender: seq<GenderShare>)

  const StatisticsData: Statistics := Statistics(
    [120000, 135000, 145000, 160000, 175000, 190000],
    ["Apr", "May", "Jun", "Jul", "Aug", "Sep"],
    [Product("Premium Collection", 65000, "+12%"), Product("Classic Line", 45000, "+8%"),
     Product("Budget Series", 25000, "+15%")],
    [Platform("Instagram", 45000, "8.5%", "2.3%"), Platform("YouTube", 25000, "12.1%", "4.1%"),
     Platform("Facebook", 35000, "6.2%", "1.8%")],
    [Campaign("Summer Collection", 340, 15000, 51000), Campaign("Festive Special", 280, 12000, 33600)],
    [AgeGroup("18-25", 25, 35000), AgeGroup("26-35", 45, 67500), AgeGroup("36-50", 30, 45000)],
    [GenderShare("Female", 65, 97500), GenderShare("Male", 35, 52500)])

  /** Integers as JSON numbers, in order. */
  function Nums(ns: seq<int>): (r: seq<Json>)
    ensures |r| == |ns|
    ensures forall i :: 0 <= i < |ns| ==> r[i] == JNum(ns[i])
  {
    if ns == [] then [] else Nums(ns[..|ns| - 1]) + [JNum(ns[|ns| - 1])]
  }

  /** The snapshot of one analysis entry: everything but its text, with `null` for missing colours. */
  function SnapshotEntry(item: AnalysisItem): Json {
    JObj([
      ("title", JStr(item.title)),
      ("chartType", JStr(item.chartType)),
      ("labels", JArr(Strings(item.chartData.labels))),
      ("data", JArr(Nums(item.chartData.data))),
      ("colors", if item.chartData.colors.Some? then JArr(Strings(item.chartData.colors.value)) else JNull)])
  }

  /** The snapshots of the analysis entries, in order. */
  function SnapshotEntries(items: seq<AnalysisItem>): (r: seq<Json>)
    ensures |r| == |items|
    ensures forall i :: 0 <= i < |items| ==> r[i] == SnapshotEntry(items[i])
  {
    if items == [] then [] else SnapshotEntries(items[..|items| - 1]) + [SnapshotEntry(items[|items| - 1])]
  }

  /** One platform as the snapshot writes it. */
  function PlatformJson(p: Platform): Json {
    JObj([("name", JStr(p.name)), ("reach", JNum(p.reach)),
          ("engagement", JStr(p.engagement)), ("conversion", JStr(p.conversion))])
  }

  /** The platforms as the snapshot writes them, in order. */
  function PlatformsJson(ps: seq<Platform>): (r: seq<Json>)
    ensures |r| == |ps|
    ensures forall i :: 0 <= i < |ps| ==> r[i] == PlatformJson(ps[i])
  {
    if ps == [] then [] else PlatformsJson(ps[..|ps| - 1]) + [PlatformJson(ps[|ps| - 1])]
  }

  /** One age group as the snapshot writes it. */
  function AgeGroupJson(g: AgeGroup): Json {
    JObj([("range", JStr(g.range)), ("percentage", JNum(g.percentage)), ("value", JNum(g.value))])
  }

  /** The age groups as the snapshot writes them, in order. */
  function AgeGroupsJson(gs: seq<AgeGroup>): (r: seq<Json>)
    ensures |r| == |gs|
    ensures forall i :: 0 <= i < |gs| ==> r[i] == AgeGroupJson(gs[i])
  {
    if gs == [] then [] else AgeGroupsJson(gs[..|gs| - 1]) + [AgeGroupJson(gs[|gs| - 1])]
  }

  /** One gender share as the snapshot writes it. */
  function GenderShareJson(g: GenderShare): Json {
    JObj([("type", JStr(g.kind)), ("percentage", JNum(g.percentage)), ("value", JNum(g.value))])
  }

  /** The gender shares as the snapshot writes them, in order. */
  function GenderJson(gs: seq<GenderShare>): (r: seq<Json>)
    ensures |r| == |gs|
    ensures forall i :: 0 <= i < |gs| ==> r[i] == GenderShareJson(gs[i])
  {
    if gs == [] then [] else GenderJson(gs[..|gs| - 1]) + [GenderShareJson(gs[|gs| - 1])]
  }

  /** The statistics part of the snapshot: sales months and revenue, platforms, and the customer segments. */
  function StatisticsSnapshot(s: Statistics): Json {
    JObj([
      ("sales", JObj([("months", JArr(Strings(s.months))), ("revenue", JArr(Nums(s.revenue)))])),
      ("marketing", JObj([("platforms", JArr(PlatformsJson(s.platforms)))])),
      ("customerSegments", JObj([("ageGroups", JArr(AgeGroupsJson(s.ageGroups))),
                                 ("gender", JArr(GenderJson(s.gender)))]))])
  }

  /** The snapshot leaves out the product lines and the campaigns: statistics that differ only there snapshot alike. */
  lemma StatisticsSnapshotOmitsProductsAndCampaigns(s: Statistics, products: seq<Product>, campaigns: seq<Campaign>)
    ensures StatisticsSnapshot(s.(products := products, campaigns := campaigns)) == StatisticsSnapshot(s)
  {
  }

  /**
   * The charts a new project is created with: under "analysis" the entries'
   * snapshots, under "statistics" the statistics' snapshot, and nothing else.
   */
  function ChartsSnapshot(items: seq<AnalysisItem>, stats: Statistics): (r: Json)
    ensures r.JObj? && Keys(r.members) == ["analysis", "statistics"]
    ensures Arg(r.members, "analysis") == JArr(SnapshotEntries(items))
    ensures Arg(r.members, "statistics") == StatisticsSnapshot(stats)
  {
    var ms := [("analysis", JArr(SnapshotEntries(items))), ("statistics", StatisticsSnapshot(stats))];
    GetUnique(ms, 0);
    GetUnique(ms, 1);
    assert ms[..1][..0] == [] && ms[..|ms| - 1] == ms[..1];
    JObj(ms)
  }

  /**
   * The snapshot has one entry per analysis item, in the same order, and
   * each entry's title, chart type, labels and values read back unchanged.
   */
  lemma SnapshotCopiesEachItem(items: seq<AnalysisItem>, stats: Statistics, i: nat)
    requires i < |items|
    ensures var snapshot := ChartsSnapshot(items, stats).members;
            && Arg(snapshot, "analysis").JArr?
            && |Arg(snapshot, "analysis").items| == |items|
            && var entry := Arg(snapshot, "analysis").items[i];
               && entry.JObj?
               && Arg(entry.members, "title") == JStr(items[i].title)
               && Arg(entry.members, "chartType") == JStr(items[i].chartType)
               && Arg(entry.members, "labels") == JArr(Strings(items[i].chartData.labels))
               && Arg(entry.members, "data") == JArr(Nums(items[i].chartData.data))
               && Arg(entry.members, "colors")
                  == (if items[i].chartData.colors.Some? then JArr(Strings(items[i].chartData.colors.value)) else JNull)
  {
    var entry := SnapshotEntries(items)[i].members;
    forall j | 0 <= j < 5
      ensures Get(entry, entry[j].0) == Some(entry[j].1)
    {
      GetUnique(entry, j);
    }
    assert entry[0].0 == "title" && entry[1].0 == "chartType" && entry[2].0 == "labels" && entry[3].0 == "data"
           && entry[4].0 == "colors";
  }

  /** The project being drafted in the creation dialog; a field not yet set is `None`. */
  datatype Draft = Draft(name: Option<string>, description: Option<string>, kind: Option<string>)

  const EmptyDraft: Draft := Draft(None, None, None)

  /** Which of the questionnaire's three buttons is showing: submit the answer, next question, or create. */
  datatype Action = SubmitShown | NextShown | CreateShown

  /** `{key: value}` when the draft has the value, nothing otherwise (`JSON.stringify` drops undefined fields). */
  function OptionalMember(key: string, v: Option<string>): (ms: Members)
    ensures Get(ms, key) == if v.Some? then Some(JStr(v.value)) else None
    ensures forall k :: k != key ==> Get(ms, k).None?
  {
    if v.Some? then
      var ms := [(key, JStr(v.value))];
      assert ms[..|ms| - 1] == [];
      ms
    else []
  }

  /** How the server reads a draft field the body may leave out: its string, or null when it is unset. */
  function OrNull(v: Option<string>): (j: Json)
    ensures j == JNull <==> v.None?
    ensures v.Some? ==> j.JStr? && j.s == v.value
  {
    if v.Some? then JStr(v.value) else JNull
  }

  /**
   * The body the browser posts to create the drafted project: the draft
   * fields that are set, the answers and the charts. Each key reads back what
   * was put under it, and an unset draft field reads as null.
   */
  function CreatePayload(draft: Draft, answers: seq<string>, charts: Json): (r: Json)
    ensures r.JObj?
    ensures Arg(r.members, "name") == OrNull(draft.name)
    ensures Arg(r.members, "type") == OrNull(draft.kind)
    ensures Arg(r.members, "description") == OrNull(draft.description)
    ensures Arg(r.members, "answers") == JArr(Strings(answers))
    ensures Arg(r.members, "charts") == charts
  {
    var name := OptionalMember("name", draft.name);
    var kind := OptionalMember("type", draft.kind);
    var description := OptionalMember("description", draft.description);
    var tail := [("answers", JArr(Strings(answers))), ("charts", charts)];
    ReadDraftMembers(name, kind, description, tail);
    JObj(name + kind + description + tail)
  }

  /** Each of the five keys of the creation body is read from the part that holds it. */
  lemma ReadDraftMembers(name: Members, kind: Members, description: Members, tail: Members)
    requires forall k :: k != "name" ==> Get(name, k).None?
    requires forall k :: k != "type" ==> Get(kind, k).None?
    requires forall k :: k != "description" ==> Get(description, k).None?
    requires |tail| == 2 && tail[0].0 == "answers" && tail[1].0 == "charts"
    ensures var ms := name + kind + description + tail;
            && Get(ms, "name") == Get(name, "name")
            && Get(ms, "type") == Get(kind, "type")
            && Get(ms, "description") == Get(description, "description")
            && Get(ms, "answers") == Some(tail[0].1)
            && Get(ms, "charts") == Some(tail[1].1)
  {
    var keys := ["name", "type", "description", "answers", "charts"];
    assert forall i, j :: 0 <= i < j < |keys| ==> keys[i] != keys[j] by {
      assert "name"[0] != "type"[0];
    }
    GetUnique(tail, 0);
    GetUnique(tail, 1);
    forall k | k in keys
      ensures Get(name + kind + description + tail, k)
              == if k == "answers" || k == "charts" then Get(tail, k)
                 else if k == "description" then Get(description, k)
                 else if k == "type" then Get(kind, k) else Get(name, k)
    {
      GetFindsLastMember(tail, k);
      GetAppend(name + kind + description, tail, k);
      GetAppend(name + kind, description, k);
      GetAppend(name, kind, k);
    }
  }

  /** Whether a loaded project entry has the given id (`p.id === projectId`). */
  predicate HasId(entry: Json, id: int) {
    entry.JObj? && Arg(entry.members, "id") == JNum(id)
  }

  /** `projects.filter(p => p.id !== projectId)`. */
  function RemoveId(projects: seq<Json>, id: int): (r: seq<Json>)
    ensures |r| <= |projects|
  {
    if projects == [] then []
    else
      var rest := RemoveId(projects[..|projects| - 1], id);
      var last := projects[|projects| - 1];
      if HasId(last, id) then rest else rest + [last]
  }

  /** The filter keeps exactly the entries without the id. */
  lemma {:induction false} RemoveIdMembers(projects: seq<Json>, id: int)
    ensures forall e :: e in RemoveId(projects, id) <==> e in projects && !HasId(e, id)
  {
    if projects != [] {
      var front := projects[..|projects| - 1];
      RemoveIdMembers(front, id);
      assert projects == front + [projects[|projects| - 1]];
    }
  }

  /** The filter keeps the order of the entries it keeps: it distributes over concatenation. */
  lemma {:induction false} RemoveIdConcat(xs: seq<Json>, ys: seq<Json>, id: int)
    ensures RemoveId(xs + ys, id) == RemoveId(xs, id) + RemoveId(ys, id)
  {
    if ys != [] {
      var front := ys[..|ys| - 1];
      RemoveIdConcat(xs, front, id);
      assert (xs + ys)[..|xs + ys| - 1] == xs + front;
    } else {
      assert xs + ys == xs;
    }
  }

  /** Removing twice removes nothing more. */
  lemma {:induction false} RemoveIdIdempotent(projects: seq<Json>, id: int)
    ensures RemoveId(RemoveId(projects, id), id) == RemoveId(projects, id)
  {
    if projects != [] {
      var front := projects[..|projects| - 1];
      var last := projects[|projects| - 1];
      RemoveIdIdempotent(front, id);
      if !HasId(last, id) {
        RemoveIdConcat(RemoveId(front, id), [last], id);
        assert RemoveId([last], id) == [last] by {
          assert [last][..0] == [];
        }
      }
    }
  }

  /** The list shrinks exactly when some entry has the id. */
  lemma {:induction false} RemoveIdShrinks(projects: seq<Json>, id: int)
    ensures |RemoveId(projects, id)| < |projects| <==> exists e :: e in projects && HasId(e, id)
  {
    if projects != [] {
      var front := projects[..|projects| - 1];
      RemoveIdShrinks(front, id);
      assert projects == front + [projects[|projects| - 1]];
      assert forall e :: e in projects <==> e in front || e == projects[|projects| - 1];
    }
  }

  /** The application object: the questionnaire, the API-key gate and the loaded project list. */
  class App {
    var currentQuestionIndex: nat
    var questionAnswers: seq<string>
    var newProject: Draft
    var action: Action
    var apiKeysSetup: bool
    var customApiKeys: seq<string>
    var projects: seq<Json>
    var currentProject: Option<Json>

    /**
     * The questionnaire is at one of the five questions; before the answer
     * is submitted there is one answer per earlier question, after it one
     * more; "next" is offered only before the last question and "create"
     * only at it. Every answer, the drafted name and every custom key are
     * trimmed and non-empty.
     */
    ghost predicate Valid()
      reads this
    {
      && currentQuestionIndex < |Questions|
      && (action == SubmitShown ==> |questionAnswers| == currentQuestionIndex)
      && (action != SubmitShown ==> |questionAnswers| == currentQuestionIndex + 1)
      && (action == NextShown ==> currentQuestionIndex < |Questions| - 1)
      && (action == CreateShown ==> currentQuestionIndex == |Questions| - 1)
      && (forall i :: 0 <= i < |questionAnswers| ==> questionAnswers[i] != [] && IsTrimmed(JavaScript, questionAnswers[i]))
      && (newProject.name.Some? ==> newProject.name.value != [] && IsTrimmed(JavaScript, newProject.name.value))
      && (forall i :: 0 <= i < |customApiKeys| ==> customApiKeys[i] != [] && IsTrimmed(JavaScript, customApiKeys[i]))
    }

    constructor ()
      ensures Valid()
      ensures currentQuestionIndex == 0 && questionAnswers == [] && newProject == EmptyDraft && action == SubmitShown
      ensures !apiKeysSetup && customApiKeys == [] && projects == [] && currentProject.None?
    {
      currentQuestionIndex := 0;
      questionAnswers := [];
      newProject := EmptyDraft;
      action := SubmitShown;
      apiKeysSetup := false;
      customApiKeys := [];
      projects := [];
      currentProject := None;
    }

    /** `projects = data.results || []` once the list has been fetched. */
    method ReceiveProjects(results: Option<seq<Json>>)
      modifies this`projects
      ensures projects == if results.Some? then results.value else []
    {
      projects := if results.Some? then results.value else [];
    }

    /** Choosing a project type in the dialog records it in the draft. */
    method ChooseType(value: string)
      requires Valid()
      modifies this`newProject
      ensures Valid()
      ensures newProject == old(newProject).(kind := Some(value))
    {
      newProject := newProject.(kind := Some(value));
    }

    /**
     * Leaving the details step: a blank name is refused and nothing changes;
     * otherwise the trimmed name and description are drafted and the
     * questionnaire starts at the first question with no answers.
     */
    method StartQuestions(nameInput: string, descriptionInput: string)
      requires Valid()
      modifies this`newProject, this`currentQuestionIndex, this`questionAnswers, this`action
      ensures Valid()
      ensures AllSpace(JavaScript, nameInput) ==>
                && newProject == old(newProject) && currentQuestionIndex == old(currentQuestionIndex)
                && questionAnswers == old(questionAnswers) && action == old(action)
      ensures !AllSpace(JavaScript, nameInput) ==>
                && newProject == old(newProject).(name := Some(Trim(JavaScript, nameInput)), description := Some(Trim(JavaScript, descriptionInput)))
                && currentQuestionIndex == 0 && questionAnswers == [] && action == SubmitShown
    {
      var name := Trim(JavaScript, nameInput);
      var description := Trim(JavaScript, descriptionInput);
      if name == [] {
        return;
      }
      newProject := newProject.(name := Some(name), description := Some(description));
      currentQuestionIndex := 0;
      questionAnswers := [];
      action := SubmitShown;
    }

    /**
     * Submitting the current answer: a blank answer is refused and nothing
     * changes; otherwise the trimmed answer is appended, and "create" is
     * offered at the last question, "next" before it.
     */
    method SubmitAnswer(answerInput: string)
      requires Valid() && action == SubmitShown
      modifies this`questionAnswers, this`action
      ensures Valid()
      ensures AllSpace(JavaScript, answerInput) ==> questionAnswers == old(questionAnswers) && action == old(action)
      ensures !AllSpace(JavaScript, answerInput) ==>
                && questionAnswers == old(questionAnswers) + [Trim(JavaScript, answerInput)]
                && action == if currentQuestionIndex == |Questions| - 1 then CreateShown else NextShown
    {
      var answer := Trim(JavaScript, answerInput);
      if answer == [] {
        return;
      }
      questionAnswers := questionAnswers + [answer];
      if currentQuestionIndex < |Questions| - 1 {
        action := NextShown;
      } else {
        action := CreateShown;
      }
    }

    /** Moving on to the next question. */
    method NextQuestion()
      requires Valid() && action == NextShown
      modifies this`currentQuestionIndex, this`action
      ensures Valid()
      ensures currentQuestionIndex == old(currentQuestionIndex) + 1 && action == SubmitShown
    {
      currentQuestionIndex := currentQuestionIndex + 1;
      action := SubmitShown;
    }

    /** Opening or closing the creation dialog: back to the first question, no answers, an empty draft. */
    method ResetCreationFlow()
      requires Valid()
      modifies this`currentQuestionIndex, this`questionAnswers, this`newProject, this`action
      ensures Valid()
      ensures currentQuestionIndex == 0 && questionAnswers == [] && newProject == EmptyDraft && action == SubmitShown
    {
      currentQuestionIndex := 0;
      questionAnswers := [];
      newProject := EmptyDraft;
      action := SubmitShown;
    }

    /**
     * Saving the API keys: the gate opens when at least one of the three
     * trimmed keys is non-empty or a custom key has been added; otherwise
     * nothing changes. The keys themselves are not kept.
     */
    method SaveApiKeys(instagram: string, youtube: string, flipkart: string)
      requires Valid()
      modifies this`apiKeysSetup
      ensures Valid()
      ensures apiKeysSetup == (old(apiKeysSetup) || ProvidedCount(instagram, youtube, flipkart, customApiKeys) >= 1)
    {
      var provided := 0;
      if Trim(JavaScript, instagram) != [] {
        provided := provided + 1;
      }
      if Trim(JavaScript, youtube) != [] {
        provided := provided + 1;
      }
      if Trim(JavaScript, flipkart) != [] {
        provided := provided + 1;
      }
      provided := provided + |customApiKeys|;
      if provided < 1 {
        return;
      }
      apiKeysSetup := true;
    }

    /** Adding a custom key: its trimmed value is appended unless it is empty. */
    method AddCustomApiKey(input: string)
      requires Valid()
      modifies this`customApiKeys
      ensures Valid()
      ensures AllSpace(JavaScript, input) ==> customApiKeys == old(customApiKeys)
      ensures !AllSpace(JavaScript, input) ==> customApiKeys == old(customApiKeys) + [Trim(JavaScript, input)]
    {
      var value := Trim(JavaScript, input);
      if value == [] {
        return;
      }
      customApiKeys := customApiKeys + [value];
    }

    /** `projects.find(p => p.id === projectId)`: the first loaded entry with the id. */
    method FindProject(id: int) returns (found: Option<Json>)
      ensures found.None? <==> forall i :: 0 <= i < |projects| ==> !HasId(projects[i], id)
      ensures found.Some? ==> exists i :: && 0 <= i < |projects| && projects[i] == found.value && HasId(found.value, id)
                                        && forall j :: 0 <= j < i ==> !HasId(projects[j], id)
    {
      var i := 0;
      while i < |projects|
        invariant 0 <= i <= |projects|
        invariant forall j :: 0 <= j < i ==> !HasId(projects[j], id)
      {
        if HasId(projects[i], id) {
          return Some(projects[i]);
        }
        i := i + 1;
      }
      return None;
    }

    /** Opening a project shows the first loaded entry with its id, if any. */
    method OpenProject(id: int)
      modifies this`currentProject
      ensures currentProject.Some? ==> currentProject.value in projects && HasId(currentProject.value, id)
      ensures currentProject.Some? ==>
                exists i :: && 0 <= i < |projects| && projects[i] == currentProject.value
                            && forall j :: 0 <= j < i ==> !HasId(projects[j], id)
      ensures currentProject.None? <==> forall e :: e in projects ==> !HasId(e, id)
    {
      currentProject := FindProject(id);
    }

    /**
     * Deleting a project from the dashboard: nothing changes when no loaded
     * entry has the id, when the user does not confirm, or when the server
     * refuses; otherwise every entry with the id leaves the list and the open
     * project is closed if it was the deleted one.
     */
    method DeleteProject(id: int, confirmed: bool, serverOk: bool)
      modifies this`projects, this`currentProject
      ensures var deleted := (exists e :: e in old(projects) && HasId(e, id)) && confirmed && serverOk;
              var closed := deleted && old(currentProject).Some? && HasId(old(currentProject).value, id);
              && projects == (if deleted then RemoveId(old(projects), id) else old(projects))
              && currentProject == (if closed then None else old(currentProject))
    {
      var project := FindProject(id);
      if project.None? {
        return;
      }
      if !confirmed {
        return;
      }
      if !serverOk {
        return;
      }
      projects := RemoveId(projects, id);
      if currentProject.Some? && HasId(currentProject.value, id) {
        currentProject := None;
      }
    }
  }

  /** How many keys `saveApiKeys` counts: the non-blank ones of the three fields plus the custom keys. */
  function ProvidedCount(instagram: string, youtube: string, flipkart: string, custom: seq<string>): (n: nat)
    ensures n >= 1 <==> !AllSpace(JavaScript, instagram) || !AllSpace(JavaScript, youtube) || !AllSpace(JavaScript, flipkart) || custom != []
  {
    (if Trim(JavaScript, instagram) != [] then 1 else 0) + (if Trim(JavaScript, youtube) != [] then 1 else 0)
      + (if Trim(JavaScript, flipkart) != [] then 1 else 0) + |custom|
  }

  /** Once the questionnaire offers "create", every question has an answer. */
  lemma CreateOfferedAfterAllAnswers(app: App)
    requires app.Valid() && app.action == CreateShown
    ensures |app.questionAnswers| == |Questions|
  {
  }
}
