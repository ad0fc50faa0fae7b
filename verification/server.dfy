/** The mock REST back end (server/index.js): in-memory users, social
    accounts, posts and analytics, the login route, the Bearer-token check,
    the list and create handlers and the `/api` fallback. The token library
    is abstracted: signing is represented by the claims that would be signed,
    verification by a caller-supplied function. */
module MockServer {
  import opened Wrappers
  import opened Types
  import Text
  import Seqs

  /** An entry of the `users` array, password included. */
  datatype UserRecord = UserRecord(id: string, email: string, password: string, name: string)

  /** An error reply or a successful value. */
  datatype Outcome<T> = Success(value: T) | Failure(status: int, message: string)

  /** The public part of a user: what login returns and what a token carries. */
  function PublicUser(u: UserRecord): User
  {
    User(u.id, u.email, u.name)
  }

  // ------------------------------------------------------------------ seed data

  function SeedUsers(): seq<UserRecord>
  {
    [UserRecord("1", "demo@example.com", "password123", "Demo User")]
  }

  function SeedAccounts(): seq<SocialAccount>
  {
    [ SocialAccount("1", "1", "twitter", "@demouser", true),
      SocialAccount("2", "1", "instagram", "@demouser", true),
      SocialAccount("3", "1", "facebook", "Demo User", false),
      SocialAccount("4", "1", "linkedin", "Demo User", true) ]
  }

  function SeedPosts(): seq<Post>
  {
    [ Post("1", "1", "Check out our new product launch! #excited", ["twitter", "instagram"],
           DateTime(2025, 4, 15, 10, 0), Scheduled,
           Some("https://images.pexels.com/photos/7947941/pexels-photo-7947941.jpeg")),
      Post("2", "1", "We're hiring! Join our amazing team today.", ["linkedin", "twitter"],
           DateTime(2025, 4, 16, 14, 30), Scheduled, None),
      Post("3", "1", "Thank you to everyone who attended our webinar!", ["facebook", "linkedin"],
           DateTime(2025, 4, 10, 9, 0), Published,
           Some("https://images.pexels.com/photos/3153198/pexels-photo-3153198.jpeg")) ]
  }

  function Day(n: nat, followers: real, engagement: real): DailyMetric
    requires 1 <= n <= 9
  {
    DailyMetric("2025-05-0" + [Text.DigitChar(n)], followers, engagement)
  }

  function SeedPlatform(followers: real, engagement: real, c1: string, v1: real, c2: string, v2: real,
                        daily: seq<DailyMetric>): (p: PlatformAnalytics)
    requires IsOptionalMetric(c1) && IsOptionalMetric(c2) && c1 != c2
    ensures WellFormedPlatform(p)
  {
    MakePlatform(followers, engagement, [(c1, v1), (c2, v2)], daily)
  }

  function SeedAnalytics(): Analytics
  {
    [ ("twitter", SeedPlatform(2342.0, 3.8, "retweets", 124.0, "likes", 532.0,
         [Day(1, 2300.0, 3.2), Day(2, 2315.0, 3.4), Day(3, 2322.0, 3.5),
          Day(4, 2330.0, 3.6), Day(5, 2336.0, 3.7), Day(6, 2342.0, 3.8)])),
      ("instagram", SeedPlatform(5432.0, 4.2, "likes", 1243.0, "comments", 215.0,
         [Day(1, 5350.0, 4.0), Day(2, 5375.0, 4.0), Day(3, 5390.0, 4.1),
          Day(4, 5410.0, 4.1), Day(5, 5420.0, 4.2), Day(6, 5432.0, 4.2)])),
      ("linkedin", SeedPlatform(1243.0, 2.8, "reactions", 345.0, "comments", 87.0,
         [Day(1, 1210.0, 2.5), Day(2, 1215.0, 2.6), Day(3, 1225.0, 2.6),
          Day(4, 1230.0, 2.7), Day(5, 1238.0, 2.7), Day(6, 1243.0, 2.8)])),
      ("facebook", SeedPlatform(3254.0, 2.1, "reactions", 578.0, "shares", 124.0,
         [Day(1, 3210.0, 1.9), Day(2, 3220.0, 1.9), Day(3, 3228.0, 2.0),
          Day(4, 3235.0, 2.0), Day(5, 3245.0, 2.1), Day(6, 3254.0, 2.1)])) ]
  }

  /** The seeded analytics object has the `Analytics` shape. */
  lemma SeedAnalyticsWellFormed()
    ensures WellFormedAnalytics(SeedAnalytics())
  {
    var a := SeedAnalytics();
    FourPlatformsWellFormed(a[0].1, a[1].1, a[2].1, a[3].1);
  }

  lemma FourPlatformsWellFormed(tw: PlatformAnalytics, ig: PlatformAnalytics,
                                li: PlatformAnalytics, fb: PlatformAnalytics)
    requires WellFormedPlatform(tw) && WellFormedPlatform(ig)
    requires WellFormedPlatform(li) && WellFormedPlatform(fb)
    ensures WellFormedAnalytics([("twitter", tw), ("instagram", ig), ("linkedin", li), ("facebook", fb)])
  {
    var a := [("twitter", tw), ("instagram", ig), ("linkedin", li), ("facebook", fb)];
    FourPlatformKeys(tw, ig, li, fb);
    forall i | 0 <= i < |a| ensures WellFormedPlatform(a[i].1) {
      if i == 0 { assert a[i].1 == tw; }
      else if i == 1 { assert a[i].1 == ig; }
      else if i == 2 { assert a[i].1 == li; }
      else { assert a[i].1 == fb; }
    }
  }

  lemma FourPlatformKeys(tw: PlatformAnalytics, ig: PlatformAnalytics,
                         li: PlatformAnalytics, fb: PlatformAnalytics)
    ensures var a := [("twitter", tw), ("instagram", ig), ("linkedin", li), ("facebook", fb)];
      && DistinctKeys(a)
      && Lookup(a, "twitter").Some? && Lookup(a, "instagram").Some?
      && Lookup(a, "linkedin").Some? && Lookup(a, "facebook").Some?
  {
    var a := [("twitter", tw), ("instagram", ig), ("linkedin", li), ("facebook", fb)];
    LookupPast(a, 1, "instagram");
    LookupPast(a, 2, "linkedin");
    LookupPast(a, 3, "facebook");
  }

  lemma SeedIdsArePositions()
    ensures IdsArePositions(SeedPosts())
  {
    assert Text.NatToString(1) == "1";
    assert Text.NatToString(2) == "2";
    assert Text.NatToString(3) == "3";
  }

  // ------------------------------------------------------------------ login

  /** `users.find(u => u.email === email && u.password === password)`: the
      index of the first user matching both, if any. An absent body field
      (`undefined`) matches nobody. */
  function FindByCredentials(users: seq<UserRecord>, email: Option<string>, password: Option<string>): (r: Option<nat>)
    ensures r.None? <==> forall i :: 0 <= i < |users| ==>
              !(email == Some(users[i].email) && password == Some(users[i].password))
    ensures r.Some? ==> (
              && r.value < |users|
              && email == Some(users[r.value].email) && password == Some(users[r.value].password)
              && forall i :: 0 <= i < r.value ==>
                   !(email == Some(users[i].email) && password == Some(users[i].password)))
  {
    if users == [] then None
    else if email == Some(users[0].email) && password == Some(users[0].password) then Some(0)
    else
      var rest := FindByCredentials(users[1..], email, password);
      if rest.Some? then Some(rest.value + 1) else None
  }

  /** What a successful login returns: the claims the token is signed over,
      and the user. */
  datatype LoginReply = LoginReply(tokenClaims: User, user: User)

  /** `POST /api/auth/login`. */
  function Login(users: seq<UserRecord>, email: Option<string>, password: Option<string>): (r: Outcome<LoginReply>)
    ensures r.Success? <==>
              exists i :: 0 <= i < |users| && email == Some(users[i].email) && password == Some(users[i].password)
    ensures r.Success? ==> (
              && r.value.tokenClaims == r.value.user
              && r.value.user.email == email.value
              && exists i :: 0 <= i < |users| && r.value.user == PublicUser(users[i]) &&
                   password == Some(users[i].password))
    ensures r.Failure? ==> r == Failure(401, "Invalid email or password")
  {
    var found := FindByCredentials(users, email, password);
    if found.None? then Failure(401, "Invalid email or password")
    else
      var u := PublicUser(users[found.value]);
      Success(LoginReply(u, u))
  }

  // ------------------------------------------------------------------ authentication

  const BearerPrefix: string := "Bearer "

  /** `authHeader.split(' ')[1]` for a header that starts with "Bearer ". */
  function BearerToken(header: string): (token: string)
    requires Text.StartsWith(header, BearerPrefix)
    ensures token == Text.Split(header[|BearerPrefix|..], ' ')[0]
  {
    var rest := header[|BearerPrefix|..];
    assert header == "Bearer" + [' '] + rest;
    Text.SplitAfterPiece("Bearer", ' ', rest);
    Text.Split(header, ' ')[1]
  }

  /** The token is everything after "Bearer " when it holds no further space. */
  lemma BearerTokenIsRest(token: string)
    requires ' ' !in token
    ensures Text.StartsWith(BearerPrefix + token, BearerPrefix)
    ensures BearerToken(BearerPrefix + token) == token
  {
    assert (BearerPrefix + token)[|BearerPrefix|..] == token;
    Text.SplitWhole(token, ' ');
  }

  /** `authenticateUser`: a missing header, one not starting with "Bearer ",
      or a token the verifier rejects is answered 401; otherwise the request
      proceeds as the decoded user. */
  function Authenticate(header: Option<string>, verify: string -> Option<User>): (r: Outcome<User>)
    ensures r.Success? <==> header.Some? && Text.StartsWith(header.value, BearerPrefix)
                            && verify(BearerToken(header.value)).Some?
    ensures r.Success? ==> r.value == verify(BearerToken(header.value)).value
    ensures r.Failure? ==> r == Failure(401, "Unauthorized")
  {
    if header.None? || !Text.StartsWith(header.value, BearerPrefix) then Failure(401, "Unauthorized")
    else
      var decoded := verify(BearerToken(header.value));
      if decoded.None? then Failure(401, "Unauthorized") else Success(decoded.value)
  }

  // ------------------------------------------------------------------ list handlers

  /** `GET /api/user`: the caller's own record, or 404 when the id is unknown. */
  function FindUser(users: seq<UserRecord>, id: string): (r: Outcome<User>)
    ensures r.Success? <==> exists i :: 0 <= i < |users| && users[i].id == id
    ensures r.Success? ==> r.value.id == id && exists i :: 0 <= i < |users| && r.value == PublicUser(users[i])
    ensures r.Failure? ==> r == Failure(404, "User not found")
  {
    if users == [] then Failure(404, "User not found")
    else if users[0].id == id then Success(PublicUser(users[0]))
    else FindUser(users[1..], id)
  }

  /** `GET /api/accounts`: the caller's accounts, in stored order. */
  function AccountsOf(accounts: seq<SocialAccount>, userId: string): (r: seq<SocialAccount>)
    ensures forall i :: 0 <= i < |r| ==> r[i].userId == userId && r[i] in accounts
    ensures forall i :: 0 <= i < |accounts| && accounts[i].userId == userId ==> accounts[i] in r
  {
    Seqs.Filter((a: SocialAccount) => a.userId == userId, accounts)
  }

  /** Each account of the caller is listed as often as the store holds it,
      nobody else's at all, and the list follows the store's order. */
  lemma AccountsOfMultiplicity(accounts: seq<SocialAccount>, userId: string, a: SocialAccount)
    ensures multiset(AccountsOf(accounts, userId))[a]
            == if a.userId == userId then multiset(accounts)[a] else 0
  {
    Seqs.FilterMultiplicity((b: SocialAccount) => b.userId == userId, accounts, a);
  }

  /** An account added to the store comes last in its owner's list and leaves
      every other user's list unchanged. */
  lemma AccountsOfAppend(accounts: seq<SocialAccount>, a: SocialAccount, userId: string)
    ensures AccountsOf(accounts + [a], userId)
            == AccountsOf(accounts, userId) + (if a.userId == userId then [a] else [])
  {
    Seqs.FilterConcat((b: SocialAccount) => b.userId == userId, accounts, [a]);
    Seqs.FilterSingleton((b: SocialAccount) => b.userId == userId, a);
  }

  /** `GET /api/posts`: the caller's posts, in insertion order. */
  function PostsOf(posts: seq<Post>, userId: string): (r: seq<Post>)
    ensures forall i :: 0 <= i < |r| ==> r[i].userId == userId && r[i] in posts
    ensures forall i :: 0 <= i < |posts| && posts[i].userId == userId ==> posts[i] in r
  {
    Seqs.Filter((p: Post) => p.userId == userId, posts)
  }

  /** A post created later is listed after every earlier post of its owner,
      and a post of another user changes nobody else's list. */
  lemma PostsOfAppend(posts: seq<Post>, p: Post, userId: string)
    ensures PostsOf(posts + [p], userId)
            == PostsOf(posts, userId) + (if p.userId == userId then [p] else [])
  {
    Seqs.FilterConcat((q: Post) => q.userId == userId, posts, [p]);
    Seqs.FilterSingleton((q: Post) => q.userId == userId, p);
  }

  /** The seeded store lists the demo user's three posts in insertion order. */
  lemma SeedPostsOfDemoUser()
    ensures PostsOf(SeedPosts(), "1") == SeedPosts()
    ensures |SeedPosts()| == 3
    ensures SeedPosts()[0].id == "1" && SeedPosts()[1].id == "2" && SeedPosts()[2].id == "3"
    ensures SeedPosts()[2].status == Published
    ensures SeedPosts()[0].status == Scheduled && SeedPosts()[1].status == Scheduled
  {
    Seqs.FilterKeepsAll((q: Post) => q.userId == "1", SeedPosts());
  }

  /** Ids are the 1-based position in the store, written in decimal. */
  ghost predicate IdsArePositions(posts: seq<Post>)
  {
    forall i :: 0 <= i < |posts| ==> posts[i].id == Text.NatToString(i + 1)
  }

  /** Position ids never repeat. */
  lemma PositionIdsDistinct(posts: seq<Post>)
    requires IdsArePositions(posts)
    ensures forall i, j :: 0 <= i < j < |posts| ==> posts[i].id != posts[j].id
  {
    forall i, j | 0 <= i < j < |posts|
      ensures posts[i].id != posts[j].id
    {
      if posts[i].id == posts[j].id {
        Text.NatToStringInjective(i + 1, j + 1);
      }
    }
  }

  // ------------------------------------------------------------------ routing

  datatype Endpoint =
    | LoginRoute        // POST /api/auth/login
    | UserRoute         // GET  /api/user
    | AccountsRoute     // GET  /api/accounts
    | ListPostsRoute    // GET  /api/posts
    | CreatePostRoute   // POST /api/posts
    | AnalyticsRoute    // GET  /api/analytics

  /** Where a request lands: a handler, the `/api` catch-all, or the
      non-API part of the server (static files / dev redirect). */
  datatype Routed = Handler(endpoint: Endpoint) | ApiNotFound | NotApi

  /** Route paths compare case-insensitively and allow one trailing slash. */
  function NormalizePath(path: string): (r: string)
    ensures |path| - 1 <= |r| <= |path|
    ensures forall i :: 0 <= i < |r| ==> r[i] == Text.LowerChar(path[i])
    ensures |r| < |path| ==> |path| > 1 && path[|path| - 1] == '/'
  {
    var p := Text.ToLower(path);
    if |p| > 1 && p[|p| - 1] == '/' then p[..|p| - 1] else p
  }

  /** A route matches its path written in any case and with a trailing slash. */
  lemma NormalizeIgnoresCaseAndSlash(path: string)
    requires path != [] && path[|path| - 1] != '/'
    ensures NormalizePath(path + "/") == NormalizePath(path)
    ensures NormalizePath(Text.ToLower(path)) == NormalizePath(path)
  {
    assert Text.ToLower(path + "/")[..|path|] == Text.ToLower(path);
  }

  /** `app.use('/api', …)` covers "/api" and everything below "/api/",
      matched at a segment boundary in any case: "/apix" is not under it. */
  function UnderApi(path: string): (b: bool)
    ensures b ==> |path| >= 4 && Text.ToLower(path[..4]) == "/api" && (|path| == 4 || path[4] == '/')
    ensures |path| >= 4 && Text.ToLower(path[..4]) == "/api" && (|path| == 4 || path[4] == '/') ==> b
  {
    var p := Text.ToLower(path);
    assert |path| >= 4 ==> Text.ToLower(path[..4]) == p[..4];
    p == "/api" || Text.StartsWith(p, "/api/")
  }

  function Route(verb: string, path: string): (r: Routed)
    ensures r.Handler? ==> UnderApi(path)
    ensures r == NotApi <==> !UnderApi(path)
    ensures r.Handler? && r.endpoint == CreatePostRoute ==> verb == "POST"
    ensures r.Handler? && r.endpoint == ListPostsRoute ==> verb == "GET"
  {
    var p := NormalizePath(path);
    if verb == "POST" && p == "/api/auth/login" then Handler(LoginRoute)
    else if verb == "GET" && p == "/api/user" then Handler(UserRoute)
    else if verb == "GET" && p == "/api/accounts" then Handler(AccountsRoute)
    else if verb == "GET" && p == "/api/posts" then Handler(ListPostsRoute)
    else if verb == "POST" && p == "/api/posts" then Handler(CreatePostRoute)
    else if verb == "GET" && p == "/api/analytics" then Handler(AnalyticsRoute)
    else if UnderApi(path) then ApiNotFound
    else NotApi
  }

  // ------------------------------------------------------------------ the server

  /** The JSON bodies the server sends. */
  datatype Json =
    | LoginJson(reply: LoginReply)
    | UserJson(user: User)
    | AccountsJson(accounts: seq<SocialAccount>)
    | PostsJson(posts: seq<Post>)
    | PostJson(post: Post)
    | AnalyticsJson(analytics: Analytics)
    | ErrorJson(error: string)     // { error: … }
    | MessageJson(message: string) // { message: … }

  datatype Response = Response(status: int, body: Json)

  /** The request body fields the handlers read. */
  datatype Body = Body(
    email: Option<string>, password: Option<string>,
    content: string, platforms: seq<string>, scheduled: DateTime, image: Option<string>)

  datatype Request = Request(verb: string, path: string, authorization: Option<string>, body: Body)

  class Server {
    var users: seq<UserRecord>
    var accounts: seq<SocialAccount>
    var posts: seq<Post>

    ghost predicate Valid()
      reads this
    {
      IdsArePositions(posts)
    }

    /** The module-level arrays as the server starts. */
    constructor ()
      ensures Valid()
      ensures users == SeedUsers() && accounts == SeedAccounts()
      ensures posts == SeedPosts()
    {
      SeedIdsArePositions();
      users := SeedUsers();
      accounts := SeedAccounts();
      posts := SeedPosts();
    }

    /** `POST /api/posts`: appends the post with the next position id, owned by
        the caller and scheduled; nothing is checked and nothing else changes. */
    method CreatePost(caller: User, content: string, platforms: seq<string>,
                      scheduled: DateTime, image: Option<string>) returns (status: int, post: Post)
      requires Valid()
      modifies this`posts
      ensures Valid()
      ensures status == 201
      ensures post == Post(Text.NatToString(|old(posts)| + 1), caller.id, content, platforms,
                           scheduled, Scheduled, image)
      ensures posts == old(posts) + [post]
    {
      post := Post(Text.NatToString(|posts| + 1), caller.id, content, platforms, scheduled, Scheduled, image);
      posts := posts + [post];
      status := 201;
    }

    /** One request through the routes in registration order. Non-API paths
        (static files, dev redirect) get None. */
    method Handle(req: Request, verify: string -> Option<User>) returns (resp: Option<Response>)
      requires Valid()
      modifies this`posts
      ensures Valid()
      ensures resp.None? <==> !UnderApi(req.path)
      ensures Route(req.verb, req.path) == ApiNotFound ==>
                resp == Some(Response(404, MessageJson("API endpoint not found")))
      ensures (Route(req.verb, req.path).Handler? && Route(req.verb, req.path).endpoint != LoginRoute &&
               Authenticate(req.authorization, verify).Failure?) ==>
                resp == Some(Response(401, MessageJson("Unauthorized")))
      ensures (Route(req.verb, req.path) != Handler(CreatePostRoute) ||
               Authenticate(req.authorization, verify).Failure?) ==>
                posts == old(posts)
      ensures (Route(req.verb, req.path) == Handler(CreatePostRoute) &&
               Authenticate(req.authorization, verify).Success?) ==>
                |posts| == |old(posts)| + 1 && posts[..|old(posts)|] == old(posts) &&
                resp.Some? && resp.value.status == 201
    {
      var route := Route(req.verb, req.path);
      if route == NotApi {
        return None;
      }
      if route == ApiNotFound {
        return Some(Response(404, MessageJson("API endpoint not found")));
      }
      var endpoint := route.endpoint;
      if endpoint == LoginRoute {
        var r := Login(users, req.body.email, req.body.password);
        resp := if r.Success? then Some(Response(200, LoginJson(r.value)))
                else Some(Response(r.status, ErrorJson(r.message)));
        return;
      }
      var auth := Authenticate(req.authorization, verify);
      if auth.Failure? {
        return Some(Response(auth.status, MessageJson(auth.message)));
      }
      var caller := auth.value;
      match endpoint {
        case UserRoute =>
          var r := FindUser(users, caller.id);
          resp := if r.Success? then Some(Response(200, UserJson(r.value)))
                  else Some(Response(r.status, MessageJson(r.message)));
        case AccountsRoute =>
          resp := Some(Response(200, AccountsJson(AccountsOf(accounts, caller.id))));
        case ListPostsRoute =>
          resp := Some(Response(200, PostsJson(PostsOf(posts, caller.id))));
        case CreatePostRoute =>
          var status, post := CreatePost(caller, req.body.content, req.body.platforms,
                                         req.body.scheduled, req.body.image);
          resp := Some(Response(status, PostJson(post)));
        case AnalyticsRoute =>
          resp := Some(Response(200, AnalyticsJson(SeedAnalytics())));
      }
    }
  }
}
