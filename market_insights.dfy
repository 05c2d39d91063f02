/**
 * The market-insights panel: a list of insight cards filtered by a category tab, with
 * colours and icons chosen from each insight's direction, category and icon name, and a
 * fixed precedence between the loading, error, empty and list views.
 */
module MarketInsights {
  import opened Wrappers
  import opened Lists

  /** One insight as the insights hook delivers it; direction and category are free text. */
  datatype Insight = Insight(
    id: string,
    title: string,
    description: string,
    value: real,
    change: real,
    changeDirection: string,
    category: string,
    icon: string,
    timestamp: string,
    unit: Option<string>)

  datatype InsightsData = InsightsData(insights: seq<Insight>)

  /** The tab values, "all" first; "all" is also the initial category. */
  const CategoryTabs: seq<string> := ["all", "onChain", "market", "social", "technical"]

  /** An insight passes the tab filter: every insight for "all", otherwise an exact category match. */
  predicate InCategory(activeCategory: string, insight: Insight) {
    activeCategory == "all" || insight.category == activeCategory
  }

  /** `insightsData?.insights.filter(...) || []`. */
  function FilteredInsights(insightsData: Option<InsightsData>, activeCategory: string): seq<Insight> {
    match insightsData
    case None => []
    case Some(d) => Filter(d.insights, (insight: Insight) => InCategory(activeCategory, insight))
  }

  /**
   * The filter keeps insights in their order without adding any; "all" keeps them all;
   * another tab keeps exactly the insights of that category; no data gives no insights.
   */
  lemma FilteredInsightsSpec(insightsData: Option<InsightsData>, activeCategory: string)
    ensures insightsData.None? ==> FilteredInsights(insightsData, activeCategory) == []
    ensures insightsData.Some? ==> IsSubsequence(FilteredInsights(insightsData, activeCategory), insightsData.value.insights)
    ensures insightsData.Some? && activeCategory == "all" ==> FilteredInsights(insightsData, activeCategory) == insightsData.value.insights
    ensures insightsData.Some? && activeCategory != "all" ==>
              forall x :: x in FilteredInsights(insightsData, activeCategory) <==>
                          x in insightsData.value.insights && x.category == activeCategory
  {
    if insightsData.Some? {
      var p := (insight: Insight) => InCategory(activeCategory, insight);
      FilterIsSubsequence(insightsData.value.insights, p);
      if activeCategory == "all" {
        FilterKeepsAll(insightsData.value.insights, p);
      } else {
        forall x {
          FilterMembers(insightsData.value.insights, p, x);
        }
      }
    }
  }

  /** The icons of the panel, from the icon library. */
  datatype InsightIcon = Hash | Users | ArrowDown | ArrowUp | MessageCircle | ThumbsUp | PieChart | Activity | BarChart

  /** The icon names the panel knows, each with its icon. */
  const IconNames: seq<(string, InsightIcon)> := [
    ("hash", Hash), ("users", Users), ("arrow-down", ArrowDown), ("arrow-up", ArrowUp),
    ("message-circle", MessageCircle), ("thumbs-up", ThumbsUp), ("pie-chart", PieChart),
    ("activity", Activity), ("bar-chart", BarChart)]

  /** `getIcon`: an unknown name falls back to Activity. */
  function IconOf(iconName: string): InsightIcon {
    match iconName
    case "hash" => Hash
    case "users" => Users
    case "arrow-down" => ArrowDown
    case "arrow-up" => ArrowUp
    case "message-circle" => MessageCircle
    case "thumbs-up" => ThumbsUp
    case "pie-chart" => PieChart
    case "activity" => Activity
    case "bar-chart" => BarChart
    case _ => Activity
  }

  /** Every listed name gets its own icon, and a name outside the list gets Activity. */
  lemma IconOfSpec(iconName: string)
    ensures forall k :: 0 <= k < |IconNames| ==> IconOf(IconNames[k].0) == IconNames[k].1
    ensures (forall k :: 0 <= k < |IconNames| ==> IconNames[k].0 != iconName) ==> IconOf(iconName) == Activity
    ensures IconOf(iconName) == Activity <==> iconName == "activity" || forall k :: 0 <= k < |IconNames| ==> IconNames[k].0 != iconName
  {
    if forall k :: 0 <= k < |IconNames| ==> IconNames[k].0 != iconName {
      assert IconNames[0].0 != iconName && IconNames[1].0 != iconName && IconNames[2].0 != iconName;
      assert IconNames[3].0 != iconName && IconNames[4].0 != iconName && IconNames[5].0 != iconName;
      assert IconNames[6].0 != iconName && IconNames[7].0 != iconName && IconNames[8].0 != iconName;
    }
  }

  datatype ChangeIcon = TrendingUp | TrendingDown | Minus

  /** `getChangeIcon`. */
  function ChangeIconOf(direction: string): ChangeIcon {
    if direction == "up" then TrendingUp
    else if direction == "down" then TrendingDown
    else Minus
  }

  /** `getChangeColor`. */
  function ChangeColorOf(direction: string): string {
    if direction == "up" then "text-green-500"
    else if direction == "down" then "text-red-500"
    else "text-yellow-500"
  }

  /** Icon and colour always agree: green rising for "up", red falling for "down", a yellow dash for anything else. */
  lemma ChangeStyleSpec(direction: string)
    ensures ChangeIconOf(direction) == TrendingUp <==> ChangeColorOf(direction) == "text-green-500"
    ensures ChangeIconOf(direction) == TrendingDown <==> ChangeColorOf(direction) == "text-red-500"
    ensures ChangeIconOf(direction) == Minus <==> ChangeColorOf(direction) == "text-yellow-500"
    ensures ChangeIconOf(direction) == TrendingUp <==> direction == "up"
    ensures ChangeIconOf(direction) == TrendingDown <==> direction == "down"
  {
  }

  /** `getCategoryColor`. */
  function CategoryColorOf(category: string): string {
    match category
    case "onChain" => "bg-blue-500/10 text-blue-500"
    case "market" => "bg-purple-500/10 text-purple-500"
    case "social" => "bg-green-500/10 text-green-500"
    case "technical" => "bg-orange-500/10 text-orange-500"
    case _ => "bg-gray-500/10 text-gray-500"
  }

  /** Each of the four tab categories has a colour of its own; every other category is gray. */
  lemma CategoryColorSpec(category: string)
    ensures category in CategoryTabs[1..] <==> CategoryColorOf(category) != "bg-gray-500/10 text-gray-500"
    ensures CategoryColorOf("onChain") != CategoryColorOf("market") && CategoryColorOf("onChain") != CategoryColorOf("social")
    ensures CategoryColorOf("onChain") != CategoryColorOf("technical") && CategoryColorOf("market") != CategoryColorOf("social")
    ensures CategoryColorOf("market") != CategoryColorOf("technical") && CategoryColorOf("social") != CategoryColorOf("technical")
  {
    assert CategoryTabs[1..] == ["onChain", "market", "social", "technical"];
  }

  /** The sign written before the change: "+" for a rise; a fall carries its own "-". */
  function SignPrefix(change: real): (r: string)
    ensures r == "+" <==> change > 0.0
    ensures r == "" <==> change <= 0.0
  {
    if change > 0.0 then "+" else ""
  }

  /** What the panel renders. */
  datatype View = LoadingView | ErrorView(message: string) | EmptyView | ListView(insights: seq<Insight>)

  /** The early returns: loading wins over an error, an error over missing or empty data. */
  function Render(isLoading: bool, error: Option<string>, insightsData: Option<InsightsData>, activeCategory: string): View {
    if isLoading then LoadingView
    else if error.Some? then ErrorView(error.value)
    else if insightsData.None? || |insightsData.value.insights| == 0 then EmptyView
    else ListView(FilteredInsights(insightsData, activeCategory))
  }

  /**
   * The precedence of the views; the "no insights" card depends on the data only, so a tab
   * that matches nothing shows an empty list rather than that card.
   */
  lemma RenderSpec(isLoading: bool, error: Option<string>, insightsData: Option<InsightsData>, activeCategory: string)
    ensures Render(isLoading, error, insightsData, activeCategory).LoadingView? <==> isLoading
    ensures Render(isLoading, error, insightsData, activeCategory).ErrorView? <==> !isLoading && error.Some?
    ensures Render(isLoading, error, insightsData, activeCategory).EmptyView? <==>
              !isLoading && error.None? && (insightsData.None? || insightsData.value.insights == [])
    ensures Render(isLoading, error, insightsData, activeCategory).ListView? ==>
              insightsData.Some? && insightsData.value.insights != [] &&
              Render(isLoading, error, insightsData, activeCategory).insights == FilteredInsights(insightsData, activeCategory)
  {
  }

  /** The panel's own state; the clock is a parameter. */
  class InsightsState {
    var activeCategory: string
    var lastUpdated: int

    constructor(now: int)
      ensures activeCategory == "all" && activeCategory == CategoryTabs[0] && lastUpdated == now
    {
      activeCategory := "all";
      lastUpdated := now;
    }

    /** The tab handler. */
    method SetActiveCategory(value: string)
      modifies this
      ensures activeCategory == value && lastUpdated == old(lastUpdated)
    {
      activeCategory := value;
    }

    /** The effect on new data: the timestamp moves only when there is data. */
    method OnInsightsData(insightsData: Option<InsightsData>, now: int)
      modifies this
      ensures lastUpdated == (if insightsData.Some? then now else old(lastUpdated))
      ensures activeCategory == old(activeCategory)
    {
      if insightsData.Some? {
        lastUpdated := now;
      }
    }
  }
}
