/** The analytics page (src/pages/Analytics.tsx): the metric list of the
    active platform, the four-card cap, the metric icon grouping and the
    colour of the active platform. */
module AnalyticsView {
  import opened Wrappers
  import opened Types
  import Text
  import Seqs

  /** One metric card: the display name, the value and the key it came from. */
  datatype Metric = Metric(name: string, value: MetricValue, key: string)

  predicate NotDaily(entry: (string, MetricValue))
  {
    entry.0 != "daily"
  }

  function ToMetric(entry: (string, MetricValue)): Metric
  {
    Metric(Text.Capitalize(entry.0), entry.1, entry.0)
  }

  /** `Object.entries(data).filter(([key]) => key !== 'daily').map(...)`:
      every entry except `daily`, in entry order, named by its capitalised key. */
  function MetricsOf(fields: seq<(string, MetricValue)>): (r: seq<Metric>)
    ensures |r| <= |fields|
    ensures forall i :: 0 <= i < |r| ==>
              && r[i].key != "daily"
              && r[i].name == Text.Capitalize(r[i].key)
              && (r[i].key, r[i].value) in fields
    ensures forall j :: 0 <= j < |fields| && fields[j].0 != "daily" ==> ToMetric(fields[j]) in r
  {
    var kept := Seqs.Filter(NotDaily, fields);
    var r := Seqs.Map(ToMetric, kept);
    forall j | 0 <= j < |fields| && fields[j].0 != "daily"
      ensures ToMetric(fields[j]) in r
    {
      assert NotDaily(fields[j]);
      var k :| 0 <= k < |kept| && kept[k] == fields[j];
      assert r[k] == ToMetric(fields[j]);
    }
    r
  }

  /** The metric list keeps entry order: entries listed earlier come first. */
  lemma MetricsOfConcat(a: seq<(string, MetricValue)>, b: seq<(string, MetricValue)>)
    ensures MetricsOf(a + b) == MetricsOf(a) + MetricsOf(b)
  {
    Seqs.FilterConcat(NotDaily, a, b);
  }

  /** For a well-formed platform exactly one entry (`daily`) is left out. */
  lemma {:induction false} MetricsDropOnlyDaily(fields: seq<(string, MetricValue)>)
    requires DistinctKeys(fields)
    requires exists j :: 0 <= j < |fields| && fields[j].0 == "daily"
    ensures |MetricsOf(fields)| == |fields| - 1
  {
    var rest := fields[1..];
    assert fields == [fields[0]] + rest;
    MetricsOfConcat([fields[0]], rest);
    Seqs.FilterSingleton(NotDaily, fields[0]);
    if fields[0].0 == "daily" {
      assert forall i :: 0 <= i < |rest| ==> rest[i].0 != "daily" by {
        forall i | 0 <= i < |rest| ensures rest[i].0 != "daily" {
          assert rest[i] == fields[i + 1];
        }
      }
      Seqs.FilterKeepsAll(NotDaily, rest);
    } else {
      var j :| 0 <= j < |fields| && fields[j].0 == "daily";
      assert rest[j - 1] == fields[j];
      MetricsDropOnlyDaily(rest);
    }
  }

  /** `getPlatformMetrics`: nothing before data arrives or when the active
      platform has no entry; otherwise the metric list of its entry. */
  function PlatformMetrics(data: Option<Analytics>, active: string): (r: seq<Metric>)
    ensures (data.None? || Lookup(data.value, active).None?) ==> r == []
    ensures data.Some? && Lookup(data.value, active).Some? ==>
              r == MetricsOf(Lookup(data.value, active).value.fields)
  {
    if data.None? then []
    else
      match Lookup(data.value, active)
      case None => []
      case Some(p) => MetricsOf(p.fields)
  }

  /** The cards shown: `getPlatformMetrics().slice(0, 4)`. */
  function ShownMetrics(data: Option<Analytics>, active: string): (r: seq<Metric>)
    ensures |r| <= 4 && |r| <= |PlatformMetrics(data, active)|
    ensures r == PlatformMetrics(data, active)[..|r|]
    ensures |PlatformMetrics(data, active)| <= 4 ==> r == PlatformMetrics(data, active)
  {
    Seqs.Take(PlatformMetrics(data, active), 4)
  }

  /** The metric icons. */
  datatype MetricIcon = Users | TrendingUp | Heart | MessageSquare | Repeat | Share2

  /** `getMetricIcon`: likes and reactions share the heart, retweets and
      shares the repeat arrows; anything else the share icon. */
  function MetricIconFor(key: string): (icon: MetricIcon)
    ensures icon == Heart <==> key == "likes" || key == "reactions"
    ensures icon == Repeat <==> key == "retweets" || key == "shares"
    ensures icon == Users <==> key == "followers"
    ensures icon == TrendingUp <==> key == "engagement"
    ensures icon == MessageSquare <==> key == "comments"
  {
    if key == "followers" then Users
    else if key == "engagement" then TrendingUp
    else if key == "likes" || key == "reactions" then Heart
    else if key == "comments" then MessageSquare
    else if key == "retweets" || key == "shares" then Repeat
    else Share2
  }

  /** The colour class each icon is drawn with. */
  function IconClass(icon: MetricIcon): (c: string)
    ensures icon == Users ==> c == "text-primary-500"
    ensures icon == Share2 ==> c == "text-warning-500"
    ensures |c| > 6 && c[..5] == "text-"
  {
    match icon
    case Users => "text-primary-500"
    case TrendingUp => "text-accent-500"
    case Heart => "text-error-500"
    case MessageSquare => "text-secondary-500"
    case Repeat => "text-success-500"
    case Share2 => "text-warning-500"
  }

  /** Keys sharing an icon share its colour; different icons never share one. */
  lemma {:induction false} IconClassInjective(a: MetricIcon, b: MetricIcon)
    ensures IconClass(a) == IconClass(b) <==> a == b
  {
    if a != b {
      var ca, cb := IconClass(a), IconClass(b);
      assert ca[5] != cb[5] || ca[6] != cb[6];
    }
  }

  /** Likes and reactions are drawn alike, and so are retweets and shares;
      a well-known metric never takes the default icon's colour. */
  lemma MetricColours(key: string)
    ensures IconClass(MetricIconFor("likes")) == IconClass(MetricIconFor("reactions")) == "text-error-500"
    ensures IconClass(MetricIconFor("retweets")) == IconClass(MetricIconFor("shares")) == "text-success-500"
    ensures IconClass(MetricIconFor(key)) == "text-warning-500" <==> MetricIconFor(key) == Share2
  {
    IconClassInjective(MetricIconFor(key), Share2);
  }

  /** Every metric a well-formed platform reports has an icon of its own:
      the default icon is never shown for it. */
  lemma WellFormedMetricsHaveIcons(p: PlatformAnalytics)
    requires WellFormedPlatform(p)
    ensures forall m :: m in MetricsOf(p.fields) ==> MetricIconFor(m.key) != Share2
  {
    forall m | m in MetricsOf(p.fields) ensures MetricIconFor(m.key) != Share2 {
      var j :| 0 <= j < |p.fields| && p.fields[j] == (m.key, m.value);
      assert p.fields[j].0 in {"followers", "engagement", "daily"} || IsOptionalMetric(p.fields[j].0);
    }
  }

  /** One tab of the platform bar. */
  datatype Tab = Tab(id: string, name: string, color: string)

  function Tabs(): seq<Tab>
  {
    [ Tab("twitter", "Twitter", "#1DA1F2"),
      Tab("instagram", "Instagram", "#E1306C"),
      Tab("facebook", "Facebook", "#4267B2"),
      Tab("linkedin", "LinkedIn", "#0077B5") ]
  }

  /** `platforms.find(p => p.id === id)`: the first tab with that id. */
  function FindTab(tabs: seq<Tab>, id: string): (r: Option<Tab>)
    ensures r.None? <==> forall i :: 0 <= i < |tabs| ==> tabs[i].id != id
    ensures r.Some? ==> exists i :: 0 <= i < |tabs| && tabs[i] == r.value && r.value.id == id
                          && forall k :: 0 <= k < i ==> tabs[k].id != id
  {
    if tabs == [] then None
    else if tabs[0].id == id then Some(tabs[0])
    else
      var r := FindTab(tabs[1..], id);
      if r.Some? then
        var i :| 0 <= i < |tabs[1..]| && tabs[1..][i] == r.value && r.value.id == id
                   && forall k :: 0 <= k < i ==> tabs[1..][k].id != id;
        assert tabs[i + 1] == r.value;
        r
      else r
  }

  const DefaultColor := "#3B82F6"

  /** The active platform's colour, `'#3B82F6'` for an id with no tab. */
  function PlatformColor(active: string): (c: string)
    ensures (forall i :: 0 <= i < |Tabs()| ==> Tabs()[i].id != active) ==> c == DefaultColor
    ensures forall i :: 0 <= i < |Tabs()| && Tabs()[i].id == active ==> c == Tabs()[i].color
  {
    var t := FindTab(Tabs(), active);
    if t.Some? && t.value.color != "" then t.value.color else DefaultColor
  }
}
