/** The string helpers of src/lib/utils.ts: truncation, initials and the
    case-insensitive platform and status lookup tables. */
module Utils {
  import Text
  import Seqs

  /** The end index `slice(0, end)` uses on a string of length `len`: a
      negative end counts from the back, and the result is clamped to 0..len. */
  function SliceEnd(len: nat, end: int): (k: nat)
    ensures k <= len
    ensures 0 <= end <= len ==> k == end
  {
    if end < 0 then (if len + end < 0 then 0 else len + end)
    else if end > len then len
    else end
  }

  /** `truncateText`: the text itself when it fits, otherwise its first
      `maxLength` characters and an ellipsis. */
  function TruncateText(text: string, maxLength: int): (r: string)
    ensures |text| <= maxLength ==> r == text
    ensures |text| > maxLength && maxLength >= 0 ==>
              && |r| == maxLength + 3
              && r == text[..maxLength] + "..."
    ensures |text| > maxLength ==>
              && 3 <= |r| <= |text| + 3
              && r[|r| - 3..] == "..." && r[..|r| - 3] == text[..|r| - 3]
    ensures maxLength >= 0 ==> |r| <= maxLength + 3
  {
    if |text| <= maxLength then text else text[..SliceEnd(|text|, maxLength)] + "..."
  }

  /** A truncated text already fits the limit plus its ellipsis. */
  lemma TruncateSettles(text: string, maxLength: nat)
    ensures TruncateText(TruncateText(text, maxLength), maxLength + 3) == TruncateText(text, maxLength)
  {
  }

  predicate NonEmpty(part: string)
  {
    part != []
  }

  /** The non-empty space-separated parts of a name. */
  function Words(name: string): (w: seq<string>)
    ensures forall i :: 0 <= i < |w| ==> w[i] != [] && ' ' !in w[i]
  {
    Seqs.Filter(NonEmpty, Text.Split(name, ' '))
  }

  /** `parts.map(part => part[0]).join('')`: an empty part gives `undefined`,
      which joins as nothing. */
  function FirstChars(parts: seq<string>): (r: string)
    ensures |r| == |Seqs.Filter(NonEmpty, parts)|
    ensures forall i :: 0 <= i < |r| ==> r[i] == Seqs.Filter(NonEmpty, parts)[i][0]
  {
    if parts == [] then []
    else
      var rest := FirstChars(parts[1..]);
      assert Seqs.Filter(NonEmpty, parts) ==
             (if NonEmpty(parts[0]) then [parts[0]] else []) + Seqs.Filter(NonEmpty, parts[1..]);
      (if parts[0] == [] then [] else [parts[0][0]]) + rest
  }

  /** `getInitials`: the upper-cased first letters of the first two words. */
  function GetInitials(name: string): (r: string)
    ensures |r| == if |Words(name)| < 2 then |Words(name)| else 2
    ensures forall i :: 0 <= i < |r| ==> r[i] == Text.UpperChar(Words(name)[i][0])
  {
    Seqs.Take(Text.ToUpper(FirstChars(Text.Split(name, ' '))), 2)
  }

  /** A first and a last name give their two initials, upper-cased. */
  lemma InitialsOfFullName(first: string, last: string)
    requires first != [] && last != []
    requires ' ' !in first && ' ' !in last
    ensures GetInitials(first + " " + last) == [Text.UpperChar(first[0]), Text.UpperChar(last[0])]
  {
    Text.SplitWhole(last, ' ');
    Text.SplitAfterPiece(first, ' ', last);
    assert first + " " + last == first + [' '] + last;
    var parts := [first, last];
    assert Text.Split(first + " " + last, ' ') == parts;
    Seqs.FilterConcat(NonEmpty, [first], [last]);
    Seqs.FilterSingleton(NonEmpty, first);
    Seqs.FilterSingleton(NonEmpty, last);
    assert [first] + [last] == parts;
    assert Words(first + " " + last) == parts;
  }

  /** The four platforms the tables know. */
  predicate KnownPlatform(p: string)
  {
    p == "twitter" || p == "facebook" || p == "instagram" || p == "linkedin"
  }

  /** `getPlatformIcon`: a known platform's own (lower-case) name, otherwise `share2`. */
  function PlatformIcon(platform: string): (r: string)
    ensures KnownPlatform(Text.ToLower(platform)) ==> r == Text.ToLower(platform)
    ensures !KnownPlatform(Text.ToLower(platform)) ==> r == "share2"
  {
    var p := Text.ToLower(platform);
    if p == "twitter" then "twitter"
    else if p == "facebook" then "facebook"
    else if p == "instagram" then "instagram"
    else if p == "linkedin" then "linkedin"
    else "share2"
  }

  /** `getPlatformColor`: the platform's text colour class, grey for an unknown one. */
  function PlatformColor(platform: string): (r: string)
    ensures r == "text-gray-500" <==> !KnownPlatform(Text.ToLower(platform))
    ensures Text.ToLower(platform) == "twitter" ==> r == "text-blue-500"
    ensures Text.ToLower(platform) == "facebook" ==> r == "text-blue-700"
    ensures Text.ToLower(platform) == "instagram" ==> r == "text-pink-600"
    ensures Text.ToLower(platform) == "linkedin" ==> r == "text-blue-600"
  {
    var p := Text.ToLower(platform);
    if p == "twitter" then "text-blue-500"
    else if p == "facebook" then "text-blue-700"
    else if p == "instagram" then "text-pink-600"
    else if p == "linkedin" then "text-blue-600"
    else "text-gray-500"
  }

  /** Both tables look only at the lower-cased name. */
  lemma PlatformTablesIgnoreCase(a: string, b: string)
    requires Text.ToLower(a) == Text.ToLower(b)
    ensures PlatformIcon(a) == PlatformIcon(b)
    ensures PlatformColor(a) == PlatformColor(b)
  {
  }

  lemma PlatformTablesOfLowerCase(platform: string)
    ensures PlatformIcon(Text.ToLower(platform)) == PlatformIcon(platform)
    ensures PlatformColor(Text.ToLower(platform)) == PlatformColor(platform)
  {
    Text.ToLowerIdempotent(platform);
  }

  /** `getStatusColor`: success, warning and error colours for published,
      scheduled and failed; grey for draft and for anything else. */
  function StatusColor(status: string): (r: string)
    ensures Text.ToLower(status) == "published" ==> r == "text-success-500"
    ensures Text.ToLower(status) == "scheduled" ==> r == "text-warning-500"
    ensures Text.ToLower(status) == "failed" ==> r == "text-error-500"
    ensures r == "text-gray-500" <==>
              !(Text.ToLower(status) in {"published", "scheduled", "failed"})
  {
    var s := Text.ToLower(status);
    if s == "published" then "text-success-500"
    else if s == "scheduled" then "text-warning-500"
    else if s == "draft" then "text-gray-500"
    else if s == "failed" then "text-error-500"
    else "text-gray-500"
  }

  lemma StatusColorIgnoresCase(status: string)
    ensures StatusColor(Text.ToLower(status)) == StatusColor(status)
  {
    Text.ToLowerIdempotent(status);
  }
}
