/** The post composer page (src/pages/CreatePost.tsx): the platform
    selection, the per-platform length limit, the form validation, the guard
    on content-suggestion requests and the date-and-time combination done on
    submit. Network calls are represented by the request the page would send. */
module Composer {
  import opened Wrappers
  import opened Types
  import Text
  import Seqs
  import MockServer

  // ------------------------------------------------------------------ length limit

  /** `platformMaxLength[p] || 5000`: the table's limit, 5000 for a platform
      the table does not list. */
  function PlatformLimit(p: string): (n: int)
    ensures 0 < n <= 5000
    ensures p == "twitter" ==> n == 280
    ensures p == "facebook" ==> n == 5000
    ensures p == "instagram" ==> n == 2200
    ensures p == "linkedin" ==> n == 3000
    ensures p != "twitter" && p != "facebook" && p != "instagram" && p != "linkedin" ==> n == 5000
    ensures n == 5000 <==> p != "twitter" && p != "instagram" && p != "linkedin"
  {
    if p == "twitter" then 280
    else if p == "facebook" then 5000
    else if p == "instagram" then 2200
    else if p == "linkedin" then 3000
    else 5000
  }

  /** `getMaxLength`: 5000 with nothing selected, otherwise the smallest limit
      among the selected platforms. */
  function MaxLength(selected: seq<string>): (n: int)
    ensures 0 < n <= 5000
    ensures selected == [] ==> n == 5000
    ensures forall i :: 0 <= i < |selected| ==> n <= PlatformLimit(selected[i])
    ensures selected != [] ==> exists i :: 0 <= i < |selected| && n == PlatformLimit(selected[i])
  {
    if selected == [] then 5000 else Seqs.Min(Seqs.Map(PlatformLimit, selected))
  }

  /** Selecting one more platform lowers the limit to that platform's limit
      at most: never raises it. */
  lemma AddingPlatformNeverRaisesLimit(selected: seq<string>, p: string)
    ensures MaxLength(selected + [p]) <= MaxLength(selected)
    ensures MaxLength(selected + [p]) == if PlatformLimit(p) < MaxLength(selected)
                                         then PlatformLimit(p) else MaxLength(selected)
  {
    var s := selected + [p];
    assert s[|selected|] == p;
    if selected != [] {
      var j :| 0 <= j < |selected| && MaxLength(selected) == PlatformLimit(selected[j]);
      assert s[j] == selected[j];
      var k :| 0 <= k < |s| && MaxLength(s) == PlatformLimit(s[k]);
      if k < |selected| {
        assert s[k] == selected[k];
      }
    }
  }

  // ------------------------------------------------------------------ selection

  predicate IsConnected(a: SocialAccount)
  {
    a.connected
  }

  function PlatformOf(a: SocialAccount): string
  {
    a.platform
  }

  /** The initial selection: the platforms of the connected accounts, in account order. */
  function DefaultSelection(accounts: seq<SocialAccount>): (r: seq<string>)
    ensures |r| <= |accounts|
  {
    Seqs.Map(PlatformOf, Seqs.Filter(IsConnected, accounts))
  }

  /** The initial selection holds the platform of every connected account and nothing else. */
  lemma DefaultSelectionMembers(accounts: seq<SocialAccount>)
    ensures forall i :: 0 <= i < |DefaultSelection(accounts)| ==>
              exists j :: 0 <= j < |accounts| && accounts[j].connected
                          && accounts[j].platform == DefaultSelection(accounts)[i]
    ensures forall j :: 0 <= j < |accounts| && accounts[j].connected ==>
              accounts[j].platform in DefaultSelection(accounts)
  {
    var connected := Seqs.Filter(IsConnected, accounts);
    var r := DefaultSelection(accounts);
    assert r == Seqs.Map(PlatformOf, connected);
    assert |r| == |connected|;
    forall i | 0 <= i < |r|
      ensures exists j :: 0 <= j < |accounts| && accounts[j].connected && accounts[j].platform == r[i]
    {
      assert connected[i] in accounts && IsConnected(connected[i]);
      var j :| 0 <= j < |accounts| && accounts[j] == connected[i];
      assert r[i] == PlatformOf(connected[i]);
      assert accounts[j].connected && accounts[j].platform == r[i];
    }
    forall j | 0 <= j < |accounts| && accounts[j].connected
      ensures accounts[j].platform in r
    {
      assert IsConnected(accounts[j]);
      var k :| 0 <= k < |connected| && connected[k] == accounts[j];
      assert r[k] == accounts[j].platform;
    }
  }

  /** The selection of two lists of accounts is the two selections in that order. */
  lemma DefaultSelectionConcat(a: seq<SocialAccount>, b: seq<SocialAccount>)
    ensures DefaultSelection(a + b) == DefaultSelection(a) + DefaultSelection(b)
  {
    Seqs.FilterConcat(IsConnected, a, b);
  }

  lemma DefaultSelectionSingle(a: SocialAccount)
    ensures DefaultSelection([a]) == if a.connected then [a.platform] else []
  {
    Seqs.FilterSingleton(IsConnected, a);
  }

  /** The demo user's accounts preselect twitter, instagram and linkedin;
      the unconnected facebook account is left out. */
  lemma SeedSelection()
    ensures DefaultSelection(MockServer.SeedAccounts()) == ["twitter", "instagram", "linkedin"]
  {
    var a := MockServer.SeedAccounts();
    FourAccounts(a[0], a[1], a[2], a[3]);
    assert a == [a[0], a[1], a[2], a[3]];
  }

  lemma FourAccounts(a0: SocialAccount, a1: SocialAccount, a2: SocialAccount, a3: SocialAccount)
    requires a0.connected && a1.connected && !a2.connected && a3.connected
    ensures DefaultSelection([a0, a1, a2, a3]) == [a0.platform, a1.platform, a3.platform]
  {
    DefaultSelectionCons(a3, []);
    assert [a3] + [] == [a3];
    assert DefaultSelection([a3]) == [a3.platform];
    DefaultSelectionCons(a2, [a3]);
    assert [a2, a3] == [a2] + [a3];
    assert DefaultSelection([a2, a3]) == [a3.platform];
    DefaultSelectionCons(a1, [a2, a3]);
    assert [a1, a2, a3] == [a1] + [a2, a3];
    assert DefaultSelection([a1, a2, a3]) == [a1.platform, a3.platform];
    DefaultSelectionCons(a0, [a1, a2, a3]);
    assert [a0, a1, a2, a3] == [a0] + [a1, a2, a3];
  }

  lemma DefaultSelectionCons(a: SocialAccount, rest: seq<SocialAccount>)
    ensures DefaultSelection([a] + rest) == (if a.connected then [a.platform] else []) + DefaultSelection(rest)
  {
    DefaultSelectionConcat([a], rest);
    DefaultSelectionSingle(a);
  }

  /** `togglePlatform`: a selected platform is removed (every occurrence); an
      unselected one is appended at the end. */
  function Toggle(selected: seq<string>, p: string): (r: seq<string>)
    ensures p in r <==> p !in selected
    ensures forall q :: q != p ==> (q in r <==> q in selected)
    ensures p !in selected ==> r == selected + [p]
  {
    if p in selected then Seqs.Filter((q: string) => q != p, selected) else selected + [p]
  }

  /** Removal keeps the order of what stays: each stretch of the selection
      loses its occurrences of the platform in place. */
  lemma ToggleConcat(a: seq<string>, b: seq<string>, p: string)
    requires p in a + b
    ensures Toggle(a + b, p) == Seqs.Filter((q: string) => q != p, a) + Seqs.Filter((q: string) => q != p, b)
  {
    Seqs.FilterConcat((q: string) => q != p, a, b);
  }

  /** A platform selected once is cut out, the platforms around it staying as they were. */
  lemma ToggleCutsOut(before: seq<string>, p: string, after: seq<string>)
    requires p !in before && p !in after
    ensures Toggle(before + [p] + after, p) == before + after
  {
    var f := (q: string) => q != p;
    var s := before + [p] + after;
    assert s[|before|] == p;
    assert forall i :: 0 <= i < |before| ==> f(before[i]);
    assert forall i :: 0 <= i < |after| ==> f(after[i]);
    calc {
      Toggle(s, p);
      Seqs.Filter(f, (before + [p]) + after);
      { Seqs.FilterConcat(f, before + [p], after); }
      Seqs.Filter(f, before + [p]) + Seqs.Filter(f, after);
      { Seqs.FilterConcat(f, before, [p]); Seqs.FilterSingleton(f, p); }
      Seqs.Filter(f, before) + Seqs.Filter(f, after);
      { Seqs.FilterKeepsAll(f, before); Seqs.FilterKeepsAll(f, after); }
      before + after;
    }
  }

  /** Removing drops exactly the occurrences of the platform and keeps every other entry. */
  lemma ToggleRemovesAllOccurrences(selected: seq<string>, p: string)
    requires p in selected
    ensures |Toggle(selected, p)| == |selected| - multiset(selected)[p]
    ensures forall q :: q != p ==> multiset(Toggle(selected, p))[q] == multiset(selected)[q]
  {
    var f := (q: string) => q != p;
    RemovedCount(selected, p);
    forall q | q != p ensures multiset(Toggle(selected, p))[q] == multiset(selected)[q] {
      Seqs.FilterMultiplicity(f, selected, q);
    }
  }

  lemma {:induction false} RemovedCount(s: seq<string>, p: string)
    ensures |Seqs.Filter((q: string) => q != p, s)| == |s| - multiset(s)[p]
  {
    if s != [] {
      RemovedCount(s[1..], p);
      assert s == [s[0]] + s[1..];
    }
  }

  /** Toggling an unselected platform twice gives back the original selection. */
  lemma ToggleTwiceRestores(selected: seq<string>, p: string)
    requires p !in selected
    ensures Toggle(Toggle(selected, p), p) == selected
  {
    var f := (q: string) => q != p;
    Seqs.FilterConcat(f, selected, [p]);
    Seqs.FilterSingleton(f, p);
    Seqs.FilterKeepsAll(f, selected);
  }

  // ------------------------------------------------------------------ validation

  /** The keys of the page's `errors` object. */
  datatype ErrorKey = ContentField | PlatformsField | DateField | TimeField | SuggestionsField | SubmitField

  const ContentRequired := "Post content is required"
  const PlatformsRequired := "At least one platform must be selected"
  const DateRequired := "Scheduled date is required"
  const TimeRequired := "Scheduled time is required"
  const SuggestionsNeedInput := "Please select at least one platform and enter a topic"
  const SubmitFailed := "Failed to create post. Please try again."

  /** The errors `validateForm` records: one per failing field, every check
      made regardless of the others. */
  function FieldErrors(content: string, platforms: seq<string>, date: Option<DateTime>, time: string)
    : (e: map<ErrorKey, string>)
    ensures ContentField in e <==> Text.Trim(content) == ""
    ensures PlatformsField in e <==> platforms == []
    ensures DateField in e <==> date.None?
    ensures TimeField in e <==> time == ""
    ensures e.Keys <= {ContentField, PlatformsField, DateField, TimeField}
    ensures ContentField in e ==> e[ContentField] == ContentRequired
    ensures PlatformsField in e ==> e[PlatformsField] == PlatformsRequired
    ensures DateField in e ==> e[DateField] == DateRequired
    ensures TimeField in e ==> e[TimeField] == TimeRequired
  {
    var e0: map<ErrorKey, string> := map[];
    var e1 := if Text.Trim(content) == "" then e0[ContentField := ContentRequired] else e0;
    var e2 := if platforms == [] then e1[PlatformsField := PlatformsRequired] else e1;
    var e3 := if date.None? then e2[DateField := DateRequired] else e2;
    if time == "" then e3[TimeField := TimeRequired] else e3
  }

  /** Content made only of whitespace is rejected, and only such content. */
  lemma BlankContentRejected(content: string, platforms: seq<string>, date: Option<DateTime>, time: string)
    ensures ContentField in FieldErrors(content, platforms, date, time) <==> Text.IsBlank(content)
  {
    Text.TrimEmptyIffBlank(content);
  }

  /** Empty content and no platform, with date and time given, is exactly two errors. */
  lemma NoShortCircuit(platforms: seq<string>, date: DateTime, time: string)
    requires time != ""
    ensures FieldErrors("", [], Some(date), time).Keys == {ContentField, PlatformsField}
  {
    assert Text.Trim("") == "";
  }

  // ------------------------------------------------------------------ date and time

  /** `"HH"` / `"MM"`: two digits, zero-padded, as a time input writes them. */
  function Pad2(n: nat): (s: string)
    requires n < 100
    ensures |s| == 2 && Text.IsDigit(s[0]) && Text.IsDigit(s[1])
    ensures Text.DigitValue(s[0]) == n / 10 && Text.DigitValue(s[1]) == n % 10
  {
    if n < 10 then "0" + Text.NatToString(n)
    else
      assert Text.NatToString(n) == Text.NatToString(n / 10) + [Text.DigitChar(n % 10)];
      assert Text.NatToString(n / 10) == [Text.DigitChar(n / 10)];
      Text.NatToString(n)
  }

  /** The value of a time input: "HH:MM". */
  function TimeText(h: nat, m: nat): (r: string)
    requires h < 24 && m < 60
    ensures |r| == 5 && r[2] == ':'
    ensures forall i :: 0 <= i < 5 && i != 2 ==> Text.IsDigit(r[i])
    ensures r[..2] == Pad2(h) && r[3..] == Pad2(m)
  {
    Pad2(h) + ":" + Pad2(m)
  }

  /** The date part of `scheduledDate` with the hours and minutes read from
      `scheduledTime.split(':')` by `parseInt`. A part that is not a number
      (or is missing) makes an invalid date; so does, in this model, a value
      outside 0..23 / 0..59. */
  function CombineDateTime(date: DateTime, time: string): (r: Option<DateTime>)
    ensures r.Some? ==> && r.value.year == date.year && r.value.month == date.month
                        && r.value.day == date.day
                        && 0 <= r.value.hour < 24 && 0 <= r.value.minute < 60
  {
    var parts := Text.Split(time, ':');
    var h := Text.ParseInt(parts[0]);
    var m := if |parts| > 1 then Text.ParseInt(parts[1]) else None;
    if h.Some? && m.Some? && 0 <= h.value < 24 && 0 <= m.value < 60
    then Some(DateTime(date.year, date.month, date.day, h.value, m.value))
    else None
  }

  lemma ParsePad2(n: nat)
    requires n < 100
    ensures Text.ParseInt(Pad2(n)) == Some(n)
  {
    if n < 10 {
      var s := Pad2(n);
      assert s == ['0', Text.DigitChar(n)];
      assert Text.IsDigit(s[0]) && Text.IsDigit(s[1]);
      assert Text.TrimStart(s) == s;
      assert s[0] != '-' && s[0] != '+';
      Text.LeadingDigitsOfDigits(s);
      assert s[..1] == "0";
      assert Text.DigitsValue(s[..1]) == 0;
      assert Text.DigitsValue(s) == Text.DigitValue(s[1]) == n;
    } else {
      Text.ParseIntNatToString(n);
    }
  }

  /** A time typed as "HH:MM" keeps the date and sets exactly that hour and minute. */
  lemma CombineTimeText(date: DateTime, h: nat, m: nat)
    requires h < 24 && m < 60
    ensures CombineDateTime(date, TimeText(h, m)) == Some(DateTime(date.year, date.month, date.day, h, m))
  {
    var hs, ms := Pad2(h), Pad2(m);
    assert ':' !in hs && ':' !in ms;
    Text.SplitWhole(ms, ':');
    Text.SplitAfterPiece(hs, ':', ms);
    assert TimeText(h, m) == hs + [':'] + ms;
    ParsePad2(h);
    ParsePad2(m);
  }

  /** 1 June 2025 at "14:30" is 14:30 on 1 June 2025. */
  lemma CombineExample()
    ensures CombineDateTime(DateTime(2025, 5, 1, 0, 0), "14:30") == Some(DateTime(2025, 5, 1, 14, 30))
  {
    assert TimeText(14, 30) == "14:30";
    CombineTimeText(DateTime(2025, 5, 1, 0, 0), 14, 30);
  }

  // ------------------------------------------------------------------ the page

  /** What the page asks the content-suggestion service for. */
  datatype SuggestionRequest = SuggestionRequest(platform: string, kpi: string, topic: string)

  /** What the page sends to create a post. */
  datatype NewPost = NewPost(content: string, platforms: seq<string>, scheduled: DateTime, image: Option<string>)

  class PostComposer {
    var accounts: seq<SocialAccount>
    var content: string
    var selected: seq<string>
    var date: Option<DateTime>
    var time: string
    var imageUrl: string
    var topic: string
    var kpi: string
    var errors: map<ErrorKey, string>

    /** The form after the accounts fetch: every connected platform selected.
        A failed fetch leaves no accounts and nothing selected. */
    constructor (fetched: Option<seq<SocialAccount>>)
      ensures accounts == (if fetched.Some? then fetched.value else [])
      ensures selected == DefaultSelection(accounts)
      ensures content == "" && date == None && time == "" && imageUrl == ""
      ensures topic == "" && kpi == "engagement" && errors == map[]
    {
      accounts := if fetched.Some? then fetched.value else [];
      selected := if fetched.Some? then DefaultSelection(fetched.value) else [];
      content, date, time, imageUrl := "", None, "", "";
      topic, kpi, errors := "", "engagement", map[];
    }

    /** `togglePlatform`. */
    method TogglePlatform(p: string)
      modifies this`selected
      ensures selected == Toggle(old(selected), p)
    {
      if p in selected {
        selected := Seqs.Filter((q: string) => q != p, selected);
      } else {
        selected := selected + [p];
      }
    }

    /** `validateForm`: records the field errors, replacing the old ones, and
        reports whether there are none. */
    method ValidateForm() returns (ok: bool)
      modifies this`errors
      ensures errors == FieldErrors(content, selected, date, time)
      ensures ok <==> errors == map[]
    {
      var newErrors: map<ErrorKey, string> := map[];
      ghost var e0 := FieldErrors(content, selected, date, time);
      if Text.Trim(content) == "" {
        newErrors := newErrors[ContentField := ContentRequired];
      }
      if selected == [] {
        newErrors := newErrors[PlatformsField := PlatformsRequired];
      }
      if date.None? {
        newErrors := newErrors[DateField := DateRequired];
      }
      if time == "" {
        newErrors := newErrors[TimeField := TimeRequired];
      }
      assert newErrors.Keys == e0.Keys;
      errors := newErrors;
      ok := newErrors == map[];
    }

    /** `handleGenerateSuggestions` up to the service call: without a topic or
        a platform the request is refused and an error added beside the
        existing ones; otherwise the first selected platform is asked about. */
    method GenerateSuggestions() returns (request: Option<SuggestionRequest>)
      modifies this`errors
      ensures (topic == "" || selected == []) ==>
                request == None && errors == old(errors)[SuggestionsField := SuggestionsNeedInput]
      ensures (topic != "" && selected != []) ==>
                request == Some(SuggestionRequest(selected[0], kpi, topic)) && errors == old(errors)
    {
      if topic == "" || selected == [] {
        errors := errors[SuggestionsField := SuggestionsNeedInput];
        return None;
      }
      request := Some(SuggestionRequest(selected[0], kpi, topic));
    }

    /** `handleSubmit` up to the create call: nothing is sent when validation
        fails; otherwise the post is sent with the combined date and time and
        an empty image URL sent as null. An unusable time is the submit error. */
    method Submit() returns (request: Option<NewPost>)
      modifies this`errors
      ensures FieldErrors(content, selected, date, time) != map[] ==>
                request == None && errors == FieldErrors(content, selected, date, time)
      ensures FieldErrors(content, selected, date, time) == map[] ==>
                match CombineDateTime(date.value, time)
                case None => request == None && errors == map[SubmitField := SubmitFailed]
                case Some(at) =>
                  && errors == map[]
                  && request == Some(NewPost(content, selected, at, if imageUrl == "" then None else Some(imageUrl)))
    {
      var ok := ValidateForm();
      if !ok {
        return None;
      }
      var at := CombineDateTime(date.value, time);
      if at.None? {
        errors := map[SubmitField := SubmitFailed];
        return None;
      }
      request := Some(NewPost(content, selected, at.value, if imageUrl == "" then None else Some(imageUrl)));
    }
  }
}
