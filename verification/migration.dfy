/**
 * The data migration that fills every project's analysis content with the
 * fixed five-entry analysis list.
 */
module Migration {
  import opened Wrappers
  import opened JsonValues
  import opened Models
  import opened Views
  import opened FrontEnd

  /** The list the migration stores, as the JSON the analysis content column holds. */
  const AnalysisContent: Json :=
    JArr([TargetMarketEntry, ProductPortfolioEntry, MarketingStrategyEntry, ChallengePriorityEntry, GrowthProjectionEntry])

  const TargetMarketEntry: Json :=
    JObj([
      ("title", JStr("Target Market Analysis")),
      ("content", JStr(TargetMarketText)),
      ("chartType", JStr("pie")),
      ("chartData", JObj([
        ("labels", JArr(Strings(["Millennials (25-35)", "Gen-Z (18-24)", "Gen-X (36-50)"]))),
        ("data", JArr(Nums([45, 30, 25]))),
        ("colors", JArr(Strings(["#1FB8CD", "#FFC185", "#B4413C"])))]))])

  const ProductPortfolioEntry: Json :=
    JObj([
      ("title", JStr("Product Portfolio Analysis")),
      ("content", JStr(ProductPortfolioText)),
      ("chartType", JStr("bar")),
      ("chartData", JObj([
        ("labels", JArr(Strings(["Premium", "Mid-range", "Budget"]))),
        ("data", JArr(Nums([60, 25, 15]))),
        ("colors", JArr(Strings(["#1FB8CD", "#FFC185", "#B4413C"])))]))])

  const MarketingStrategyEntry: Json :=
    JObj([
      ("title", JStr("Marketing Strategy Assessment")),
      ("content", JStr(MarketingStrategyText)),
      ("chartType", JStr("line")),
      ("chartData", JObj([
        ("labels", JArr(Strings(["Instagram", "Facebook", "YouTube", "Google Ads"]))),
        ("data", JArr(Nums([40, 30, 20, 10]))),
        ("colors", JArr(Strings(["#1FB8CD"])))]))])

  const ChallengePriorityEntry: Json :=
    JObj([
      ("title", JStr("Challenge Priority Matrix")),
      ("content", JStr(ChallengePriorityText)),
      ("chartType", JStr("bar")),
      ("chartData", JObj([
        ("labels", JArr(Strings(["Supply Chain", "Digital Transform", "Customer Retention", "Competition", "Funding"]))),
        ("data", JArr(Nums([85, 75, 70, 60, 45]))),
        ("colors", JArr(Strings(["#1FB8CD", "#FFC185", "#B4413C", "#ECEBD5", "#5D878F"])))]))])

  const GrowthProjectionEntry: Json :=
    JObj([
      ("title", JStr("Growth Projection Analysis")),
      ("content", JStr(GrowthProjectionText)),
      ("chartType", JStr("line")),
      ("chartData", JObj([
        ("labels", JArr(Strings(["Q1", "Q2", "Q3", "Q4"]))),
        ("data", JArr(Nums([15, 25, 35, 45]))),
        ("colors", JArr(Strings(["#1FB8CD"])))]))])



  /** Every row with its analysis content replaced by `content`. */
  function Filled(rows: map<nat, Project>, content: Json): map<nat, Project> {
    map id | id in rows :: rows[id].(analysisContent := content)
  }

  /**
   * The migration touches nothing but the analysis content: no row is added
   * or removed, every row ends with `content`, and every other field keeps
   * its value.
   */
  lemma FilledFrame(rows: map<nat, Project>, content: Json)
    ensures Filled(rows, content).Keys == rows.Keys
    ensures forall id :: id in rows ==>
              var p, q := rows[id], Filled(rows, content)[id];
              && q.analysisContent == content
              && q.id == p.id && q.name == p.name && q.kind == p.kind && q.description == p.description
              && q.createdDate == p.createdDate && q.questionsAnswered == p.questionsAnswered
              && q.answers == p.answers && q.charts == p.charts
  {
  }

  /** Running the migration twice gives the same table as running it once. */
  lemma FilledIdempotent(rows: map<nat, Project>, content: Json)
    ensures Filled(Filled(rows, content), content) == Filled(rows, content)
  {
  }

  /** The filled table is still keyed by id. */
  lemma FilledKeyedById(rows: map<nat, Project>, content: Json)
    requires KeyedById(rows)
    ensures KeyedById(Filled(rows, content))
  {
  }

  /** The table with the rows whose ids are in `done` filled and the others untouched. */
  ghost function FilledOn(rows: map<nat, Project>, done: set<nat>, content: Json): map<nat, Project> {
    map id | id in rows :: if id in done then rows[id].(analysisContent := content) else rows[id]
  }

  /** Saving one more filled row extends the filled part by its id. */
  lemma FilledOnStep(rows: map<nat, Project>, done: set<nat>, content: Json, id: nat)
    requires id in rows
    ensures FilledOn(rows, done, content)[id := rows[id].(analysisContent := content)]
            == FilledOn(rows, done + {id}, content)
  {
  }

  /** Once every row is filled, the partly filled table is the filled table. */
  lemma FilledOnAll(rows: map<nat, Project>, done: set<nat>, content: Json)
    requires rows.Keys <= done
    ensures FilledOn(rows, done, content) == Filled(rows, content)
  {
  }

  /** Visiting every row the table lists visits every row of the table. */
  lemma VisitedAll(rows: map<nat, Project>, bound: nat, done: set<nat>)
    requires KeyedById(rows) && forall id :: id in rows ==> id < bound
    requires forall k :: 0 <= k < |RowsBelow(rows, bound)| ==> RowsBelow(rows, bound)[k].id in done
    ensures rows.Keys <= done
  {
    RowsBelowComplete(rows, bound);
    var all := RowsBelow(rows, bound);
    forall id | id in rows
      ensures id in done
    {
      var k :| 0 <= k < |all| && all[k] == rows[id];
    }
  }

  /**
   * `for project in Project.objects.all(): project.analysis_content = content; project.save()`:
   * every row visited once, in the table's order, and saved with the new content.
   */
  method SetAnalysisContent(store: ProjectStore, content: Json)
    requires store.Valid()
    modifies store
    ensures store.Valid() && store.nextId == old(store.nextId)
    ensures store.rows == Filled(old(store.rows), content)
  {
    var all := store.Ordered();
    ghost var before := store.rows;
    RowsBelowSound(before, store.nextId);
    ghost var done: set<nat> := {};
    var i := 0;
    while i < |all|
      invariant 0 <= i <= |all|
      invariant store.Valid() && store.nextId == old(store.nextId)
      invariant forall k :: 0 <= k < i ==> all[k].id in done
      invariant store.rows == FilledOn(before, done, content)
    {
      assert all[i] in all;
      FillRow(store, before, done, content, all[i]);
      done := done + {all[i].id};
      i := i + 1;
    }
    VisitedAll(before, store.nextId, done);
    FilledOnAll(before, done, content);
  }

  /** One turn of the loop: `project.analysis_content = content; project.save()`. */
  method FillRow(store: ProjectStore, ghost before: map<nat, Project>, ghost done: set<nat>, content: Json, project: Project)
    requires store.Valid() && store.rows == FilledOn(before, done, content)
    requires project.id in before && before[project.id] == project
    modifies store`rows
    ensures store.Valid() && store.rows == FilledOn(before, done + {project.id}, content)
  {
    FilledOnStep(before, done, content, project.id);
    store.Save(project.(analysisContent := content));
  }

  /** The migration: every project gets the fixed analysis list. */
  method FillAnalysisContent(store: ProjectStore)
    requires store.Valid()
    modifies store
    ensures store.Valid() && store.nextId == old(store.nextId)
    ensures store.rows == Filled(old(store.rows), AnalysisContent)
  {
    SetAnalysisContent(store, AnalysisContent);
  }

  /** An analysis entry as the JSON object the migration writes for it. */
  function ItemJson(item: AnalysisItem): Json {
    JObj([
      ("title", JStr(item.title)),
      ("content", JStr(item.content)),
      ("chartType", JStr(item.chartType)),
      ("chartData", JObj([
        ("labels", JArr(Strings(item.chartData.labels))),
        ("data", JArr(Nums(item.chartData.data))),
        ("colors", if item.chartData.colors.Some? then JArr(Strings(item.chartData.colors.value)) else JNull)]))])
  }

  /** The migration's list is the browser's analysis data, entry for entry. */
  lemma AnalysisContentIsFrontEndData()
    ensures AnalysisContent.JArr? && |AnalysisContent.items| == |AnalysisData|
    ensures forall i :: 0 <= i < |AnalysisData| ==> AnalysisContent.items[i] == ItemJson(AnalysisData[i])
  {
    var content, data := AnalysisContent.items, AnalysisData;
    assert content == [TargetMarketEntry, ProductPortfolioEntry, MarketingStrategyEntry, ChallengePriorityEntry, GrowthProjectionEntry];
    assert data == [TargetMarketItem, ProductPortfolioItem, MarketingStrategyItem, ChallengePriorityItem, GrowthProjectionItem];
    TargetMarketMatches();
    ProductPortfolioMatches();
    MarketingStrategyMatches();
    ChallengePriorityMatches();
    GrowthProjectionMatches();
    EntryForEntry(content, data);
  }

  /** Five entries that match one by one match everywhere. */
  lemma EntryForEntry(content: seq<Json>, data: seq<AnalysisItem>)
    requires |content| == 5 && |data| == 5
    requires content[0] == ItemJson(data[0]) && content[1] == ItemJson(data[1]) && content[2] == ItemJson(data[2])
    requires content[3] == ItemJson(data[3]) && content[4] == ItemJson(data[4])
    ensures forall i :: 0 <= i < |data| ==> content[i] == ItemJson(data[i])
  {
  }

  lemma TargetMarketMatches()
    ensures TargetMarketEntry == ItemJson(TargetMarketItem)
  {
  }

  lemma ProductPortfolioMatches()
    ensures ProductPortfolioEntry == ItemJson(ProductPortfolioItem)
  {
  }

  lemma MarketingStrategyMatches()
    ensures MarketingStrategyEntry == ItemJson(MarketingStrategyItem)
  {
  }

  lemma ChallengePriorityMatches()
    ensures ChallengePriorityEntry == ItemJson(ChallengePriorityItem)
  {
  }

  lemma GrowthProjectionMatches()
    ensures GrowthProjectionEntry == ItemJson(GrowthProjectionItem)
  {
  }
}
