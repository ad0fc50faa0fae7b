# Social media scheduler core in Dafny

This project models the logic of a small social-media scheduling application
that has a React front end and a mock Express back end. The back end keeps
users, connected social accounts, posts and per-platform analytics in memory.
It answers a login route, checks Bearer tokens, lists a user's accounts and
posts, and appends newly created posts. The front end's pages add rules of
their own:

- the post composer validates the form, toggles platforms, limits post length
  per platform, guards suggestion requests and combines date and time;
- the calendar lays out a month grid and moves between months;
- the dashboard and analytics pages aggregate and project the fetched data;
- the password-reset page parses URL parameters from the query and the hash;
- a toast queue collects notifications.

Modules, one per source file plus shared helpers:

| file | module | models |
|---|---|---|
| `types.dfy` | `Types` | the records of `src/types/index.ts` and the shape of analytics objects |
| `server.dfy` | `MockServer` | `server/index.js`: seed data, login, token check, list and create handlers, `/api` fallback; the store is the class `Server` |
| `composer.dfy` | `Composer` | `src/pages/CreatePost.tsx`; the form state is the class `PostComposer` |
| `calendar.dfy` | `CalendarView` | `src/pages/Calendar.tsx`; the displayed month is the class `CalendarPage` |
| `dates.dfy` | `Dates` | Gregorian month lengths and weekdays, which the calendar gets from its date library |
| `dashboard.dfy` | `Dashboard` | `src/pages/Dashboard.tsx` |
| `analytics.dfy` | `AnalyticsView` | `src/pages/Analytics.tsx` |
| `utils.dfy` | `Utils` | `src/lib/utils.ts` |
| `reset_password.dfy` | `ResetPassword` | `src/pages/ResetPassword.tsx`; `URLSearchParams` is the class `SearchParams` |
| `toaster.dfy` | `Toasts` | `src/components/ui/toaster.tsx`; the provider's list is the class `ToastQueue` |
| `text.dfy`, `seqs.dfy`, `wrappers.dfy` | `Text`, `Seqs`, `Wrappers` | the JavaScript built-ins the code relies on: `split`, `join`, `trim`, ASCII `toLowerCase`/`toUpperCase`, `String(n)`, `parseInt`, `filter`, `slice`, `Math.min` |

Conventions:

- Months are numbered 0..11, as `Date.getMonth()` numbers them.
- A `DateTime` holds year, month, day, hour and minute.
- JavaScript numbers in analytics are Dafny `real`s.
- An object is an ordered list of (key, value) entries, in the order `Object.entries` reports them.
- `null` and `undefined` values, and the absent optional request fields (`email`, `password`, `image`), are `None`.
- Lengths and indices count Unicode code points.
- Token verification is a function the caller supplies. Signing a token is represented by the claims that would be signed.

## Model

| member | source | states |
|---|---|---|
| Types.ParseStatus | src/types/index.ts:21 | a status string is accepted only as one of the four statuses, and then names exactly that status |
| Types.ParseStatusName | src/types/index.ts:21 | every status reads back as itself from its stored name |
| Types.Lookup | src/types/index.ts:42-48 | reading a property gives nothing exactly when no entry has the key, and otherwise a value stored under it |
| Types.MakePlatform | src/types/index.ts:31-40 | a platform object built from followers, engagement, distinct optional counters and a daily series has the `PlatformAnalytics` shape and gives back each value under its key |
| MockServer.SeedAnalyticsWellFormed | server/index.js:55-112 | the seeded analytics object has entries for twitter, instagram, linkedin and facebook, each of the `PlatformAnalytics` shape |
| MockServer.SeedIdsArePositions | server/index.js:25-53 | each seeded post's id is its 1-based position in decimal |
| MockServer.SeedPostsOfDemoUser | server/index.js:25-53 | the demo user owns all three seeded posts, listed in order "1", "2", "3"; the first two are scheduled and the third published |
| MockServer.FindByCredentials | server/index.js:118 | the first user whose email and password both equal the request's, or none when no user matches both |
| MockServer.Login | server/index.js:115-131 | login succeeds iff some user matches both email and password; it then returns that user's public fields, which are also the token's claims; otherwise 401 "Invalid email or password" with no token |
| MockServer.BearerToken | server/index.js:141 | the token is the second space-separated field, which is the text after "Bearer " up to the next space |
| MockServer.BearerTokenIsRest | server/index.js:137-141 | for "Bearer " followed by a space-free token, the extracted token is that token |
| MockServer.Authenticate | server/index.js:134-150 | a request passes iff the header is present, starts with "Bearer " and its token verifies; it then proceeds as the decoded user, and otherwise gets 401 "Unauthorized" |
| MockServer.FindUser | server/index.js:153-158 | the caller's public record when a user has that id, otherwise 404 "User not found" |
| MockServer.AccountsOf | server/index.js:161-164 | the accounts whose owner is the caller, all taken from the store, and every such account |
| MockServer.AccountsOfMultiplicity | server/index.js:162 | each of the caller's accounts is listed as often as the store holds it, and no other account is listed |
| MockServer.AccountsOfAppend | server/index.js:162 | the list follows the store's order: an account added last comes last in its owner's list and changes no other user's list |
| MockServer.PostsOf | server/index.js:167-170 | exactly the posts whose owner is the caller, all taken from the store |
| MockServer.PostsOfAppend | server/index.js:167-185 | a post appended later is listed after all of its owner's earlier posts, and leaves other users' lists unchanged |
| MockServer.PositionIdsDistinct | server/index.js:176 | ids equal to 1-based positions never repeat |
| MockServer.NormalizePath | server/index.js:115-195 | the path is compared lower-cased, with at most one trailing slash dropped, and nothing else changed |
| MockServer.NormalizeIgnoresCaseAndSlash | server/index.js:115-195 | a path written in another case or with a trailing slash reaches the same route |
| MockServer.UnderApi | server/index.js:195 | a path is under `/api` iff it starts with `/api` in any case and that prefix ends a segment |
| MockServer.Route | server/index.js:194-197 | only paths under `/api` reach a handler or the 404 fallback; create is POST only and listing posts is GET only |
| MockServer.Server.constructor | server/index.js:14-53 | the store starts with the seed users, accounts and posts, and the id invariant holds |
| MockServer.Server.CreatePost | server/index.js:172-187 | create always answers 201 and appends exactly one post at the end, with the next position id, the caller as owner, status scheduled, and the request's content, platforms, date and image; earlier posts are unchanged and the id invariant is kept |
| MockServer.Server.Handle | server/index.js:115-197 | a non-API path gets no API answer; an unknown `/api` path gets 404 "API endpoint not found"; a protected route without a valid token gets 401; only an authenticated create changes the store, appending one post and answering 201 |
| Composer.PlatformLimit | src/pages/CreatePost.tsx:207-216 | twitter 280, facebook 5000, instagram 2200, linkedin 3000, and 5000 for a platform the table does not list; every limit is at most 5000 |
| Composer.MaxLength | src/pages/CreatePost.tsx:214-217 | 5000 with nothing selected; otherwise a limit of one selected platform that is no larger than the limit of any selected platform, so never above 5000 |
| Composer.AddingPlatformNeverRaisesLimit | src/pages/CreatePost.tsx:214-217 | selecting one more platform never raises the limit: it becomes the smaller of the old limit and the new platform's limit |
| Composer.DefaultSelection | src/pages/CreatePost.tsx:57-59 | the initial selection has at most one platform per fetched account |
| Composer.DefaultSelectionMembers | src/pages/CreatePost.tsx:57-59 | the initial selection holds every connected account's platform and only those |
| Composer.DefaultSelectionConcat | src/pages/CreatePost.tsx:57-59 | the selection follows account order |
| Composer.SeedSelection | src/pages/CreatePost.tsx:57-59 | the demo accounts preselect twitter, instagram and linkedin, in that order |
| Composer.Toggle | src/pages/CreatePost.tsx:74-80 | toggling flips whether the platform is selected and leaves every other platform's membership alone; an unselected platform is appended at the end |
| Composer.ToggleConcat | src/pages/CreatePost.tsx:75-76 | removal keeps the order of the remaining platforms: each stretch of the selection loses the platform in place |
| Composer.ToggleCutsOut | src/pages/CreatePost.tsx:75-76 | a platform selected once is cut out, with the platforms before and after it kept in order |
| Composer.ToggleRemovesAllOccurrences | src/pages/CreatePost.tsx:74-76 | removing a selected platform drops every occurrence of it and keeps every other entry as often as before |
| Composer.ToggleTwiceRestores | src/pages/CreatePost.tsx:74-80 | toggling an unselected platform twice gives back the original selection, in order |
| Composer.FieldErrors | src/pages/CreatePost.tsx:86-107 | there is one error per failing field, with that field's message: content blank after trimming, no platform, no date, no time; every check is made and no other key appears |
| Composer.BlankContentRejected | src/pages/CreatePost.tsx:89-91 | content is rejected iff it is empty or only whitespace |
| Composer.NoShortCircuit | src/pages/CreatePost.tsx:86-107 | empty content with no platform yields both errors, not just the first |
| Text.TrimEmptyIffBlank | src/pages/CreatePost.tsx:89 | `trim()` gives the empty string exactly for blank text |
| Composer.CombineDateTime | src/pages/CreatePost.tsx:125-127 | the combined instant keeps the date's year, month and day, and has an hour in 0..23 and a minute in 0..59 |
| Composer.Pad2 | src/pages/CreatePost.tsx:477-481 | a two-digit field holds the tens and the units of the number |
| Composer.TimeText | src/pages/CreatePost.tsx:477-481 | a time input's value is two digits, a colon, two digits: the hour's and the minute's fields |
| Composer.ParsePad2 | src/pages/CreatePost.tsx:126 | `parseInt` reads a two-digit field, leading zero included, back as its number |
| Composer.CombineTimeText | src/pages/CreatePost.tsx:125-127 | a time written "HH:MM" sets exactly that hour and minute on the chosen date |
| Composer.CombineExample | src/pages/CreatePost.tsx:125-127 | 1 June 2025 at "14:30" becomes 14:30 on 1 June 2025 |
| Text.ParseIntNatToString | src/pages/CreatePost.tsx:126 | `parseInt` reads a decimal numeral back as its number |
| Composer.PostComposer.constructor | src/pages/CreatePost.tsx:25-66 | the form starts empty, with KPI "engagement" and no errors; after the accounts fetch the selection is the connected platforms, and nothing is selected when the fetch fails |
| Composer.PostComposer.TogglePlatform | src/pages/CreatePost.tsx:74-80 | the selection becomes its toggle |
| Composer.PostComposer.ValidateForm | src/pages/CreatePost.tsx:86-107 | the errors are replaced by the field errors, and the result is true iff there are none |
| Composer.PostComposer.GenerateSuggestions | src/pages/CreatePost.tsx:145-157 | without a topic or a platform no request is made and a suggestions error is added beside the existing errors; otherwise the request names the first selected platform, the KPI and the topic, and the errors are unchanged |
| Composer.PostComposer.Submit | src/pages/CreatePost.tsx:109-143 | nothing is sent when validation fails; otherwise the post is sent with the combined date and time and a null image for an empty URL; an unusable time leaves only the submit error |
| Dates.DaysInMonth | src/pages/Calendar.tsx:55 | every month has between 28 and 31 days |
| Dates.DayOfWeek | src/pages/Calendar.tsx:58 | a weekday is a number from 0 (Sunday) to 6 (Saturday) |
| Dates.NextDay | src/pages/Calendar.tsx:56 | the day after a valid date is a valid date |
| Dates.YearLength | src/pages/Calendar.tsx:54-58 | consecutive years are 366 days apart after a leap year and 365 otherwise |
| Dates.MonthsMakeYear | src/pages/Calendar.tsx:54-58 | the twelve month lengths add up to the year's length |
| Dates.NextDayNumber | src/pages/Calendar.tsx:56 | the day after has the next day number, across month and year ends |
| Dates.DayOfWeekNextDay | src/pages/Calendar.tsx:58 | weekdays advance by one from each day to the next, Saturday wrapping to Sunday |
| Dates.KnownWeekdays | src/pages/Calendar.tsx:58 | 1 January 1970 and 1 May 2025 fall on a Thursday |
| CalendarView.PostsForDay | src/pages/Calendar.tsx:60-69 | every post returned is on that day's year, month and day, and comes from the store |
| CalendarView.PostsForDayExact | src/pages/Calendar.tsx:60-69 | a day's posts are all the store's posts on that day, each as often as stored, in store order |
| CalendarView.Materialize | src/pages/Calendar.tsx:128-137 | the leading blank cells number the weekday of the 1st; there is one cell per day of the month; the cell for day d holds midnight of day d, that day's posts and the today flag |
| CalendarView.CalendarPage.Grid | src/pages/Calendar.tsx:54-69 | the grid is laid out for the displayed month, and every post in a cell is a fetched post scheduled on that cell's day |
| CalendarView.GridShape | src/pages/Calendar.tsx:128-134 | there are fewer than 7 blanks, and the day cells are valid dates in strictly ascending order |
| CalendarView.PostInExactlyOneCell | src/pages/Calendar.tsx:60-69 | a post shows in some cell iff it is scheduled in the displayed month; it then shows only in its own day's cell, as often as the store holds it |
| CalendarView.AtMostOneToday | src/pages/Calendar.tsx:135-137 | at most one cell is marked today, and one is iff the current date lies in the displayed month |
| CalendarView.PreviousMonthStart | src/pages/Calendar.tsx:44-46 | previous goes to midnight on day 1 of the month before, with January going back to December of the prior year |
| CalendarView.NextMonthStart | src/pages/Calendar.tsx:48-50 | next goes to midnight on day 1 of the month after, with December going forward to January of the next year |
| CalendarView.NavigationRoundTrip | src/pages/Calendar.tsx:44-50 | next then previous, or previous then next, returns to day 1 of the starting month |
| CalendarView.CalendarPage.constructor | src/pages/Calendar.tsx:10-27 | the page opens on the current month with the fetched posts, or with no posts when the fetch fails |
| CalendarView.CalendarPage.PreviousMonth | src/pages/Calendar.tsx:44-46 | the displayed date becomes the start of the previous month |
| CalendarView.CalendarPage.NextMonth | src/pages/Calendar.tsx:48-50 | the displayed date becomes the start of the next month |
| Dashboard.FollowersOf | src/pages/Dashboard.tsx:80 | a platform contributes its numeric `followers` value |
| Dashboard.SumFollowers | src/pages/Dashboard.tsx:77-81 | when no count is negative, the sum is at least every single platform's followers |
| Dashboard.TotalFollowers | src/pages/Dashboard.tsx:77-81 | the total is 0 without analytics and otherwise bounds every platform's count from above |
| Dashboard.SumFollowersConcat | src/pages/Dashboard.tsx:80 | the total over two groups of platforms is the sum of their totals |
| Dashboard.TotalFollowersAppend | src/pages/Dashboard.tsx:80 | one more platform adds exactly its followers |
| Dashboard.CountStatus | src/pages/Dashboard.tsx:140 | a status count never exceeds the number of posts |
| Dashboard.CountStatusExtremes | src/pages/Dashboard.tsx:140 | a count is 0 iff no post has the status, and equals the number of posts iff every post has it |
| Dashboard.ScheduledPlusPublishedBounded | src/pages/Dashboard.tsx:140-154 | the scheduled and published counts together never exceed the number of posts |
| Dashboard.StatusCountsPartition | src/types/index.ts:21 | the four status counts add up to the number of posts |
| Dashboard.CountStatusAppend | src/pages/Dashboard.tsx:140-154 | a new post raises the count of its own status by one and no other count |
| Dashboard.RecentPosts | src/pages/Dashboard.tsx:226 | the recent posts are the first min(5, n) posts in store order |
| AnalyticsView.MetricsOf | src/pages/Analytics.tsx:96-102 | every entry except `daily` becomes a metric; each metric keeps its key and value, and its name is the key with the first character upper-cased |
| Text.Capitalize | src/pages/Analytics.tsx:99 | only the first character is upper-cased; the length and the rest of the string are kept |
| Text.CapitalizeSameUpToCase | src/pages/Analytics.tsx:99 | the display name equals its key up to case |
| AnalyticsView.MetricsOfConcat | src/pages/Analytics.tsx:96-97 | metrics follow the entry order of the object |
| AnalyticsView.MetricsDropOnlyDaily | src/pages/Analytics.tsx:96-97 | for distinct keys including `daily`, exactly one entry is left out |
| AnalyticsView.PlatformMetrics | src/pages/Analytics.tsx:92-105 | the list is empty without data or without an entry for the active platform; otherwise it is that entry's metric list |
| AnalyticsView.ShownMetrics | src/pages/Analytics.tsx:154 | at most four cards are shown: the first ones of the metric list, or all when there are at most four |
| AnalyticsView.MetricIconFor | src/pages/Analytics.tsx:73-90 | likes and reactions share the heart icon and retweets and shares share the repeat icon; followers, engagement and comments each have their own; every other key gets the default |
| AnalyticsView.IconClass | src/pages/Analytics.tsx:73-90 | followers are drawn in the primary colour and the default icon in the warning colour; every icon gets a `text-` class |
| AnalyticsView.IconClassInjective | src/pages/Analytics.tsx:73-90 | different icons never share a colour |
| AnalyticsView.MetricColours | src/pages/Analytics.tsx:73-90 | likes and reactions share the error colour, retweets and shares the success colour, and only keys without an icon of their own get the warning colour |
| AnalyticsView.WellFormedMetricsHaveIcons | src/pages/Analytics.tsx:73-90 | no metric of a well-formed platform gets the default icon |
| AnalyticsView.FindTab | src/pages/Analytics.tsx:116 | the tab found is the first with that id, and there is none iff no tab has it |
| AnalyticsView.PlatformColor | src/pages/Analytics.tsx:116 | a listed platform gets its tab's colour, any other id '#3B82F6' |
| Utils.SliceEnd | src/lib/utils.ts:39 | the end index of `slice(0, end)` lies within the string and equals `end` when `end` is in range |
| Utils.TruncateText | src/lib/utils.ts:37-40 | text within the limit is unchanged; longer text becomes its first maxLength characters followed by "...", so its length is maxLength + 3 |
| Utils.TruncateSettles | src/lib/utils.ts:37-40 | a truncated text fits the limit plus the ellipsis |
| Utils.Words | src/lib/utils.ts:44 | the words of a name are non-empty and hold no space |
| Utils.FirstChars | src/lib/utils.ts:45-46 | there is one character per non-empty part, namely that part's first, in order; empty parts give nothing |
| Utils.GetInitials | src/lib/utils.ts:42-49 | the initials are the upper-cased first characters of the first two words, at most two characters |
| Utils.InitialsOfFullName | src/lib/utils.ts:42-49 | "first last" gives both initials, upper-cased |
| Utils.PlatformIcon | src/lib/utils.ts:62-75 | a known platform's icon is its lower-cased name; any other platform gets 'share2' |
| Utils.PlatformColor | src/lib/utils.ts:77-90 | twitter 'text-blue-500', facebook 'text-blue-700', instagram 'text-pink-600', linkedin 'text-blue-600' in any case, and 'text-gray-500' exactly for unknown platforms |
| Utils.PlatformTablesIgnoreCase | src/lib/utils.ts:62-90 | names that are equal up to case get the same icon and colour |
| Utils.PlatformTablesOfLowerCase | src/lib/utils.ts:62-90 | the tables give the same answer for a name and its lower-cased form |
| Utils.StatusColor | src/lib/utils.ts:92-105 | published, scheduled and failed get the success, warning and error colours in any case; draft and unknown statuses get 'text-gray-500' |
| Utils.StatusColorIgnoresCase | src/lib/utils.ts:92-105 | a status and its lower-cased form get the same colour |
| ResetPassword.Get | src/pages/ResetPassword.tsx:39-41 | `get` gives nothing iff no pair has the name, and otherwise a stored value for it |
| ResetPassword.SetParam | src/pages/ResetPassword.tsx:30 | after `set` the name gives the new value, every other name keeps its value, and the name appears only once |
| ResetPassword.PieceParam | src/pages/ResetPassword.tsx:28-29 | a hash piece contributes a pair only when both its key and its value are non-empty |
| ResetPassword.PieceOfPair | src/pages/ResetPassword.tsx:28-29 | a piece written key=value contributes exactly that pair |
| ResetPassword.LastValue | src/pages/ResetPassword.tsx:27-32 | a value found for a key comes from an accepted piece with that key |
| ResetPassword.ReplaceFirst | src/pages/ResetPassword.tsx:30 | when the name is present, `set` leaves it once with the new value and every other name's value alone |
| ResetPassword.ApplyPiece | src/pages/ResetPassword.tsx:28-31 | a piece that gives a pair sets that name and no other; any other piece changes nothing |
| ResetPassword.ApplyPieces | src/pages/ResetPassword.tsx:27-32 | after the loop each name holds the value of the last accepted piece for it, or else its query value |
| ResetPassword.HashPieces | src/pages/ResetPassword.tsx:21-26 | no pieces for an empty hash; otherwise `&`-free pieces that join back, with `&`, into the hash without its `#` |
| ResetPassword.UrlParams | src/pages/ResetPassword.tsx:17-36 | hash values replace query values of the same name, later pieces replace earlier ones, and names the hash does not give keep their query values |
| ResetPassword.HashOfTwoPieces | src/pages/ResetPassword.tsx:21-26 | the `#` is dropped and the rest splits at `&` |
| ResetPassword.LastValueOfTwo | src/pages/ResetPassword.tsx:27-32 | of two pieces, the second wins for its key |
| ResetPassword.LaterPieceWins | src/pages/ResetPassword.tsx:27-32 | when a key appears twice in the hash, the later value is read |
| ResetPassword.IsResetToken | src/pages/ResetPassword.tsx:53 | reset mode needs the pair type=recovery and a non-empty access token among the parameters |
| ResetPassword.ResetModeOfUrl | src/pages/ResetPassword.tsx:17-53 | reset mode holds iff the hash's last `type`, or else the query's, is `recovery`, and an access token comes from the hash or is non-empty in the query |
| ResetPassword.RecoveryLinkIsReset | src/pages/ResetPassword.tsx:53 | a hash carrying a non-empty access token and type=recovery puts the page in reset mode, whatever the query says |
| ResetPassword.SearchParams.constructor | src/pages/ResetPassword.tsx:18 | the parameters start as a copy of the query's |
| ResetPassword.SearchParams.GetValue | src/pages/ResetPassword.tsx:39-41 | reads a name's first value |
| ResetPassword.SearchParams.Set | src/pages/ResetPassword.tsx:30 | the contents become the result of `set` |
| ResetPassword.GetUrlParams | src/pages/ResetPassword.tsx:17-36 | the loop over the hash pieces leaves exactly the parameters described by UrlParams |
| ResetPassword.ResetPasswordPage.constructor | src/pages/ResetPassword.tsx:7-12 | the form starts empty, with no error, no message and not loading |
| ResetPassword.ResetPasswordPage.HandleResetPassword | src/pages/ResetPassword.tsx:108-124 | differing entries end with 'Passwords do not match', loading off and no update; equal ones clear the messages, start loading and request the new password |
| Toasts.WithoutId | src/components/ui/toaster.tsx:33-35 | no toast with the id remains, and every other toast does |
| Toasts.WithoutIdConcat | src/components/ui/toaster.tsx:33-35 | removal keeps the other toasts in order |
| Toasts.WithoutAbsentId | src/components/ui/toaster.tsx:33-35 | removing an id no toast has changes nothing |
| Toasts.WithoutIdIdempotent | src/components/ui/toaster.tsx:33-35 | removing twice is the same as removing once |
| Toasts.AddThenRemove | src/components/ui/toaster.tsx:28-35 | a toast added under a fresh id and removed by it leaves the queue as it was |
| Toasts.WithoutIdKeepsDistinct | src/components/ui/toaster.tsx:33-35 | removal keeps ids distinct |
| Toasts.DropOldest | src/components/ui/toaster.tsx:38-42 | the timer removes only the oldest toast, and leaves an empty queue empty |
| Toasts.QueueStepsKeepDistinct | src/components/ui/toaster.tsx:28-42 | appending with a fresh id, and dropping the oldest, keep ids distinct |
| Toasts.ToastClass | src/components/ui/toaster.tsx:61-72 | success, error and warning get the success, error and warning classes; only the default type gets the primary class |
| Toasts.ToastClassInjective | src/components/ui/toaster.tsx:61-72 | two kinds of toast share a class only when they are the same kind |
| Toasts.ToastQueue.constructor | src/components/ui/toaster.tsx:26 | the queue starts empty |
| Toasts.ToastQueue.AddToast | src/components/ui/toaster.tsx:28-31 | one toast with the given id is appended; the others are unchanged |
| Toasts.ToastQueue.RemoveToast | src/components/ui/toaster.tsx:33-35 | the queue loses exactly the toasts with the id |
| Toasts.ToastQueue.TimerFires | src/components/ui/toaster.tsx:37-45 | the queue loses its oldest toast, if any |
| Text.NatToStringInjective | server/index.js:176 | distinct numbers give distinct decimal strings |

## Left out

- Network calls, Supabase authentication and profile updates, the OAuth pages and the content-suggestion function are not modelled. They are I/O with outside services. The model stops at the request a page would send.
- `jwt.sign` and `jwt.verify` are not modelled: they are a crypto library. Verification is a caller-supplied function. Signing is represented by the claims that would be signed. The 7-day expiry is not modelled.
- Express wiring, JSON body parsing, static file serving, the development redirect and `listen` are not modelled. Route matching is modelled only as case-insensitive paths with one optional trailing slash. HEAD requests are not modelled.
- MockServer.Server.CreatePost: the request's `scheduled` string is given already parsed as a `DateTime`; an unparsable date (an Invalid Date in the source) is not modelled.
- MockServer.Body: `content` and `platforms` are always present. The source stores `undefined` for a missing one and still answers 201. That case is not modelled, because a stored post always has a content string and a platform list here.
- Text lengths count Unicode code points, not UTF-16 code units. A Dafny `char` is a scalar value, so an astral character (an emoji, say) is one character here but two in JavaScript. `Utils.TruncateText`, `Utils.GetInitials`' `charAt(0)` and `Text.Capitalize` therefore differ from the source on such text: the source can cut a surrogate pair in half.
- MockServer.Server.Handle: only the status and, for create, the store change are stated. The other handlers' bodies are given by the functions they call.
- Floating-point rounding is not modelled: analytics numbers are exact reals. `getAverageEngagement` and the display of engagement values are left out because they are floating point.
- Dashboard.FollowersOf: a platform without a numeric `followers` value contributes 0. The source would produce NaN. Analytics from the back end always have the field.
- Case mapping covers ASCII letters only. JavaScript's `toLowerCase`/`toUpperCase` map all of Unicode.
- `parseInt` is modelled for radix 10 only: no "0x" prefix.
- Composer.CombineDateTime: an hour outside 0..23 or a minute outside 0..59 is treated as an unusable time, which gives the submit error. The source's `setHours` would roll over into the next day. A time input cannot produce such values. Seconds and milliseconds are not modelled.
- Composer.PlatformLimit: names that are inherited object properties (such as "constructor") count as unknown platforms. In the source they would not give a number.
- CalendarView.PreviousMonthStart, CalendarView.NextMonthStart: `new Date(y, m, 1)` reads a year 0..99 as 1900 + y. The model keeps such years as they are, so navigating before year 100 differs from the source.
- Time zones are not modelled: the UTC parsing of `yyyy-MM-dd`, local `setHours` and `toISOString`. Dates are plain fields.
- The date library's internals (`startOfMonth`, `endOfMonth`, `eachDayOfInterval`, `getDay`) are replaced by the Gregorian functions in `Dates`.
- The current time (`new Date()`) is a parameter. So are the random toast id and the toast timer, which is an explicit step. `clearTimeout` is not modelled.
- A failed create call after successful validation also ends in the submit error. That network outcome is not modelled.
- Loading and saving flags other than the reset page's `isLoading`, the character counter and the suggestion results are not modelled. They are display state.
- The reset page's session setup, its reset-email request and the profile update after a password change are not modelled: they are Supabase calls. Percent-decoding of the query string is left to `URLSearchParams` and is not modelled; the source does not decode hash pieces either.
- `Toaster` renders its own list, which starts empty and is separate from the provider's queue. Its `removeToast` is the same filter as `Toasts.WithoutId`. Its rendering is not modelled.
- Icon and JSX rendering are not modelled (`renderPlatformIcon`, `renderStatusIcon`, the "Connected" badges), except for the metric icon grouping.
- Locale formatting (`formatDate`, `formatTime`, `formatDateTime`, `toLocaleString`), `getRandomColor` and `cn` are not modelled. They are locale formatting, randomness and a styling library.
