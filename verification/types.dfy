/** The application's records (src/types/index.ts). */
module Types {
  import opened Wrappers
  import Seqs

  datatype User = User(id: string, email: string, name: string)

  datatype SocialAccount = SocialAccount(
    id: string, userId: string, platform: string, handle: string, connected: bool)

  /** A post's status is exactly one of these four. */
  datatype Status = Scheduled | Published | Draft | Failed

  /** A calendar instant as the application reads it back from a `Date`:
      `getFullYear()`, `getMonth()` (0 = January), `getDate()`,
      `getHours()`, `getMinutes()`. */
  datatype DateTime = DateTime(year: int, month: int, day: int, hour: int, minute: int)

  /** `image` is a string or `null`. */
  datatype Post = Post(
    id: string, userId: string, content: string, platforms: seq<string>,
    scheduled: DateTime, status: Status, image: Option<string>)

  datatype DailyMetric = DailyMetric(date: string, followers: real, engagement: real)

  /** A property value of a platform's analytics object: a number, or the
      `daily` series. */
  datatype MetricValue = Number(x: real) | Series(days: seq<DailyMetric>)

  /** A platform's analytics object as its ordered list of (key, value)
      entries, the order `Object.entries` reports. */
  datatype PlatformAnalytics = PlatformAnalytics(fields: seq<(string, MetricValue)>)

  /** The analytics object: platform id to that platform's analytics, in entry order. */
  type Analytics = seq<(string, PlatformAnalytics)>

  /** The string a status is stored and sent as. */
  function StatusName(s: Status): string
  {
    match s
    case Scheduled => "scheduled"
    case Published => "published"
    case Draft => "draft"
    case Failed => "failed"
  }

  /** Reads a status string; anything outside the four names is not a status. */
  function ParseStatus(name: string): (r: Option<Status>)
    ensures r.Some? ==> StatusName(r.value) == name
  {
    if name == "scheduled" then Some(Scheduled)
    else if name == "published" then Some(Published)
    else if name == "draft" then Some(Draft)
    else if name == "failed" then Some(Failed)
    else None
  }

  lemma ParseStatusName(s: Status)
    ensures ParseStatus(StatusName(s)) == Some(s)
  {
  }

  /** The value stored under `key` in an ordered entry list (the first entry
      with that key), or None when there is none. */
  function Lookup<V>(entries: seq<(string, V)>, key: string): (r: Option<V>)
    ensures r.None? <==> forall i :: 0 <= i < |entries| ==> entries[i].0 != key
    ensures r.Some? ==> (key, r.value) in entries
  {
    if entries == [] then None
    else if entries[0].0 == key then Some(entries[0].1)
    else Lookup(entries[1..], key)
  }

  predicate DistinctKeys<V>(entries: seq<(string, V)>)
  {
    forall i, j :: 0 <= i < j < |entries| ==> entries[i].0 != entries[j].0
  }

  /** The optional counters a platform may report. */
  predicate IsOptionalMetric(key: string)
  {
    key == "retweets" || key == "likes" || key == "comments" || key == "reactions" || key == "shares"
  }

  /** The shape of `PlatformAnalytics`: `followers`, `engagement` and `daily`
      always present, any of the optional counters, nothing else, each key once. */
  predicate WellFormedPlatform(p: PlatformAnalytics)
  {
    && DistinctKeys(p.fields)
    && Lookup(p.fields, "followers").Some? && Lookup(p.fields, "followers").value.Number?
    && Lookup(p.fields, "engagement").Some? && Lookup(p.fields, "engagement").value.Number?
    && Lookup(p.fields, "daily").Some? && Lookup(p.fields, "daily").value.Series?
    && forall i :: 0 <= i < |p.fields| ==>
         || p.fields[i].0 in {"followers", "engagement", "daily"}
         || (IsOptionalMetric(p.fields[i].0) && p.fields[i].1.Number?)
  }

  /** The shape of `Analytics`: entries for twitter, instagram, linkedin and
      facebook, possibly other platforms, each key once, every value well formed. */
  predicate WellFormedAnalytics(a: Analytics)
  {
    && DistinctKeys(a)
    && Lookup(a, "twitter").Some? && Lookup(a, "instagram").Some?
    && Lookup(a, "linkedin").Some? && Lookup(a, "facebook").Some?
    && forall i :: 0 <= i < |a| ==> WellFormedPlatform(a[i].1)
  }

  /** Builds a platform's analytics object with its entries in the order the
      mock back end writes them: followers, engagement, the optional
      counters, daily. */
  function MakePlatform(followers: real, engagement: real, counters: seq<(string, real)>,
                        daily: seq<DailyMetric>): (p: PlatformAnalytics)
    requires forall i :: 0 <= i < |counters| ==> IsOptionalMetric(counters[i].0)
    requires DistinctKeys(counters)
    ensures WellFormedPlatform(p)
    ensures Lookup(p.fields, "followers") == Some(Number(followers))
    ensures Lookup(p.fields, "engagement") == Some(Number(engagement))
    ensures Lookup(p.fields, "daily") == Some(Series(daily))
    ensures forall i :: 0 <= i < |counters| ==> Lookup(p.fields, counters[i].0) == Some(Number(counters[i].1))
  {
    var fields := PlatformFields(followers, engagement, counters, daily);
    PlatformFieldsLookups(followers, engagement, counters, daily);
    PlatformFieldsDistinct(followers, engagement, counters, daily);
    PlatformAnalytics(fields)
  }

  function PlatformFields(followers: real, engagement: real, counters: seq<(string, real)>,
                          daily: seq<DailyMetric>): (fields: seq<(string, MetricValue)>)
    ensures |fields| == |counters| + 3
    ensures fields[0] == ("followers", Number(followers))
    ensures fields[1] == ("engagement", Number(engagement))
    ensures forall j :: 2 <= j < |counters| + 2 ==> fields[j] == (counters[j - 2].0, Number(counters[j - 2].1))
    ensures fields[|counters| + 2] == ("daily", Series(daily))
  {
    [("followers", Number(followers)), ("engagement", Number(engagement))]
    + Seqs.Map((c: (string, real)) => (c.0, Number(c.1)), counters)
    + [("daily", Series(daily))]
  }

  lemma PlatformFieldsLookups(followers: real, engagement: real, counters: seq<(string, real)>,
                              daily: seq<DailyMetric>)
    requires forall i :: 0 <= i < |counters| ==> IsOptionalMetric(counters[i].0)
    requires DistinctKeys(counters)
    ensures var fields := PlatformFields(followers, engagement, counters, daily);
      && Lookup(fields, "followers") == Some(Number(followers))
      && Lookup(fields, "engagement") == Some(Number(engagement))
      && Lookup(fields, "daily") == Some(Series(daily))
      && forall i :: 0 <= i < |counters| ==> Lookup(fields, counters[i].0) == Some(Number(counters[i].1))
  {
    var fields := PlatformFields(followers, engagement, counters, daily);
    forall j | 0 <= j < |counters| + 2 ensures fields[j].0 != "daily" {
      if j >= 2 { OptionalMetricIsNotFixed(counters[j - 2].0); }
    }
    LookupPast(fields, |counters| + 2, "daily");
    LookupPast(fields, 1, "engagement");
    forall i | 0 <= i < |counters|
      ensures Lookup(fields, counters[i].0) == Some(Number(counters[i].1))
    {
      OptionalMetricIsNotFixed(counters[i].0);
      LookupPast(fields, i + 2, counters[i].0);
    }
  }

  lemma PlatformFieldsDistinct(followers: real, engagement: real, counters: seq<(string, real)>,
                               daily: seq<DailyMetric>)
    requires forall i :: 0 <= i < |counters| ==> IsOptionalMetric(counters[i].0)
    requires DistinctKeys(counters)
    ensures var fields := PlatformFields(followers, engagement, counters, daily);
      && DistinctKeys(fields)
      && forall i :: 0 <= i < |fields| ==>
           || fields[i].0 in {"followers", "engagement", "daily"}
           || (IsOptionalMetric(fields[i].0) && fields[i].1.Number?)
  {
    var fields := PlatformFields(followers, engagement, counters, daily);
    forall i, j | 0 <= i < j < |fields| ensures fields[i].0 != fields[j].0 {
      if 2 <= i < |counters| + 2 { OptionalMetricIsNotFixed(counters[i - 2].0); }
      if 2 <= j < |counters| + 2 { OptionalMetricIsNotFixed(counters[j - 2].0); }
    }
  }

  lemma OptionalMetricIsNotFixed(key: string)
    requires IsOptionalMetric(key)
    ensures key != "followers" && key != "engagement" && key != "daily"
  {
    assert "likes"[0] != "daily"[0];
  }

  /** Lookup finds the first entry with the key. */
  lemma {:induction false} LookupPast<V>(entries: seq<(string, V)>, k: nat, key: string)
    requires k < |entries| && entries[k].0 == key
    requires forall i :: 0 <= i < k ==> entries[i].0 != key
    ensures Lookup(entries, key) == Some(entries[k].1)
    decreases k
  {
    if k > 0 {
      LookupPast(entries[1..], k - 1, key);
    }
  }
}
