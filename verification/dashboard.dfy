/** The dashboard's figures (src/pages/Dashboard.tsx): total followers over
    all platforms, the scheduled and published counts and the five most
    recent posts, computed from the lists the page fetched. */
module Dashboard {
  import opened Wrappers
  import opened Types
  import Seqs

  /** `platform.followers`; a platform without a numeric `followers` entry
      contributes nothing. */
  function FollowersOf(p: PlatformAnalytics): (f: real)
    ensures Lookup(p.fields, "followers").Some? && Lookup(p.fields, "followers").value.Number? ==>
              f == Lookup(p.fields, "followers").value.x
  {
    var v: Option<MetricValue> := Lookup(p.fields, "followers");
    if v.Some? && v.value.Number? then v.value.x else 0.0
  }

  /** Sum of the followers of every platform entry, in entry order. When no
      platform has a negative count, the sum bounds every single count. */
  function SumFollowers(entries: Analytics): (t: real)
    ensures (forall i :: 0 <= i < |entries| ==> FollowersOf(entries[i].1) >= 0.0) ==>
              && t >= 0.0
              && forall i :: 0 <= i < |entries| ==> FollowersOf(entries[i].1) <= t
  {
    if entries == [] then 0.0 else FollowersOf(entries[0].1) + SumFollowers(entries[1..])
  }

  /** `getTotalFollowers`: 0 before analytics arrive, the sum otherwise. */
  function TotalFollowers(analytics: Option<Analytics>): (t: real)
    ensures analytics.None? ==> t == 0.0
    ensures analytics.Some? && (forall i :: 0 <= i < |analytics.value| ==> FollowersOf(analytics.value[i].1) >= 0.0) ==>
              forall i :: 0 <= i < |analytics.value| ==> 0.0 <= FollowersOf(analytics.value[i].1) <= t
  {
    if analytics.None? then 0.0 else SumFollowers(analytics.value)
  }

  /** The total of two groups of platforms is the sum of their totals. */
  lemma {:induction false} SumFollowersConcat(a: Analytics, b: Analytics)
    ensures SumFollowers(a + b) == SumFollowers(a) + SumFollowers(b)
  {
    if a == [] {
      assert a + b == b;
    } else {
      assert (a + b)[1..] == a[1..] + b;
      SumFollowersConcat(a[1..], b);
    }
  }

  /** Adding one platform adds exactly its followers to the total. */
  lemma TotalFollowersAppend(a: Analytics, entry: (string, PlatformAnalytics))
    ensures TotalFollowers(Some(a + [entry])) == TotalFollowers(Some(a)) + FollowersOf(entry.1)
  {
    SumFollowersConcat(a, [entry]);
    assert [entry][1..] == [];
  }

  /** `posts.filter(post => post.status === s).length`. */
  function CountStatus(posts: seq<Post>, s: Status): (n: nat)
    ensures n <= |posts|
  {
    Seqs.CountWhere((p: Post) => p.status == s, posts)
  }

  /** Counting a post in front of others. */
  lemma CountStatusCons(p: Post, posts: seq<Post>, s: Status)
    ensures CountStatus([p] + posts, s) == (if p.status == s then 1 else 0) + CountStatus(posts, s)
  {
    assert ([p] + posts)[1..] == posts;
  }

  /** The count is zero exactly when no post has the status, and the total
      exactly when every post has it. */
  lemma {:induction false} CountStatusExtremes(posts: seq<Post>, s: Status)
    ensures CountStatus(posts, s) == 0 <==> forall i :: 0 <= i < |posts| ==> posts[i].status != s
    ensures CountStatus(posts, s) == |posts| <==> forall i :: 0 <= i < |posts| ==> posts[i].status == s
  {
    if posts != [] {
      var rest := posts[1..];
      assert posts == [posts[0]] + rest;
      CountStatusCons(posts[0], rest, s);
      CountStatusExtremes(rest, s);
      assert forall i :: 0 < i < |posts| ==> posts[i] == rest[i - 1];
    }
  }

  /** The scheduled and published counts together never exceed the number of posts. */
  lemma ScheduledPlusPublishedBounded(posts: seq<Post>)
    ensures CountStatus(posts, Scheduled) + CountStatus(posts, Published) <= |posts|
  {
    Seqs.DisjointCountsBounded((p: Post) => p.status == Scheduled, (p: Post) => p.status == Published, posts);
  }

  /** Every post has exactly one of the four statuses, so the four counts add up to the total. */
  lemma {:induction false} StatusCountsPartition(posts: seq<Post>)
    ensures CountStatus(posts, Scheduled) + CountStatus(posts, Published)
          + CountStatus(posts, Draft) + CountStatus(posts, Failed) == |posts|
  {
    if posts != [] {
      var rest := posts[1..];
      assert posts == [posts[0]] + rest;
      CountStatusCons(posts[0], rest, Scheduled);
      CountStatusCons(posts[0], rest, Published);
      CountStatusCons(posts[0], rest, Draft);
      CountStatusCons(posts[0], rest, Failed);
      StatusCountsPartition(rest);
    }
  }

  /** A newly added post raises its own status count by one and leaves the others. */
  lemma CountStatusAppend(posts: seq<Post>, p: Post, s: Status)
    ensures CountStatus(posts + [p], s) == CountStatus(posts, s) + (if p.status == s then 1 else 0)
  {
    var f := (q: Post) => q.status == s;
    Seqs.FilterConcat(f, posts, [p]);
    Seqs.FilterSingleton(f, p);
  }

  /** `posts.slice(0, 5)`: the first five posts in stored order, or all of them. */
  function RecentPosts(posts: seq<Post>): (r: seq<Post>)
    ensures |r| == if |posts| < 5 then |posts| else 5
    ensures r == posts[..|r|]
  {
    Seqs.Take(posts, 5)
  }
}
