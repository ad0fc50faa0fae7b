/** The password-reset page (src/pages/ResetPassword.tsx): the URL parameters
    read from the query string and the hash fragment, the decision whether
    the page is in reset mode, and the password/confirmation check. */
module ResetPassword {
  import opened Wrappers
  import Types
  import Text
  import Seqs

  /** `URLSearchParams` contents: name/value pairs in order. */
  type Params = seq<(string, string)>

  /** `params.get(key)`: the first value stored under the key. */
  function Get(params: Params, key: string): (r: Option<string>)
    ensures r.None? <==> forall i :: 0 <= i < |params| ==> params[i].0 != key
    ensures r.Some? ==> (key, r.value) in params
  {
    Types.Lookup(params, key)
  }

  /** `params.set(key, value)`: the first pair with the key gets the value and
      later pairs with it are dropped; without one, the pair is appended. */
  function SetParam(params: Params, key: string, value: string): (r: Params)
    ensures Get(r, key) == Some(value)
    ensures forall k :: k != key ==> Get(r, k) == Get(params, k)
    ensures forall i, j :: 0 <= i < j < |r| ==> r[i].0 == key ==> r[j].0 != key
  {
    if forall i :: 0 <= i < |params| ==> params[i].0 != key then
      AppendedLookups(params, key, value);
      params + [(key, value)]
    else
      ReplaceFirst(params, key, value)
  }

  lemma AppendedLookups(params: Params, key: string, value: string)
    requires forall i :: 0 <= i < |params| ==> params[i].0 != key
    ensures Get(params + [(key, value)], key) == Some(value)
    ensures forall k :: k != key ==> Get(params + [(key, value)], k) == Get(params, k)
  {
    forall k | k != key ensures Get(params + [(key, value)], k) == Get(params, k) {
      AppendedLookup(params, (key, value), k);
    }
    Types.LookupPast(params + [(key, value)], |params|, key);
  }

  lemma {:induction false} AppendedLookup(params: Params, entry: (string, string), k: string)
    requires entry.0 != k
    ensures Get(params + [entry], k) == Get(params, k)
  {
    if params != [] {
      assert (params + [entry])[1..] == params[1..] + [entry];
      AppendedLookup(params[1..], entry, k);
    }
  }

  /** The test `set` uses to drop the later pairs of a key. */
  function OtherKey(key: string): ((string, string)) -> bool
  {
    (e: (string, string)) => e.0 != key
  }

  function ReplaceFirst(params: Params, key: string, value: string): (r: Params)
    requires exists i :: 0 <= i < |params| && params[i].0 == key
    ensures Get(r, key) == Some(value)
    ensures forall k :: k != key ==> Get(r, k) == Get(params, k)
    ensures forall i, j :: 0 <= i < j < |r| ==> r[i].0 == key ==> r[j].0 != key
  {
    assert params == [params[0]] + params[1..];
    if params[0].0 == key then
      var rest := Seqs.Filter(OtherKey(key), params[1..]);
      var r := [(key, value)] + rest;
      ReplacedHead(params, key, value);
      r
    else
      var tail := ReplaceFirst(params[1..], key, value);
      var r := [params[0]] + tail;
      forall k | k != key ensures Get(r, k) == Get(params, k) {
        GetCons(params[0], tail, k);
        GetCons(params[0], params[1..], k);
      }
      GetCons(params[0], tail, key);
      assert forall i :: 0 < i < |r| ==> r[i] == tail[i - 1];
      r
  }

  /** The case of `set` where the first pair already has the key. */
  lemma ReplacedHead(params: Params, key: string, value: string)
    requires params != [] && params[0].0 == key
    ensures var r := [(key, value)] + Seqs.Filter(OtherKey(key), params[1..]);
            && Get(r, key) == Some(value)
            && (forall k :: k != key ==> Get(r, k) == Get(params, k))
            && (forall i, j :: 0 <= i < j < |r| ==> r[i].0 == key ==> r[j].0 != key)
  {
    var rest := Seqs.Filter(OtherKey(key), params[1..]);
    var r := [(key, value)] + rest;
    assert params == [params[0]] + params[1..];
    forall k | k != key ensures Get(r, k) == Get(params, k) {
      DroppedKeyLookup(params[1..], key, k);
      GetCons((key, value), rest, k);
      GetCons(params[0], params[1..], k);
    }
    GetCons((key, value), rest, key);
    forall j | 0 < j < |r| ensures r[j].0 != key {
      assert r[j] == rest[j - 1];
      assert OtherKey(key)(rest[j - 1]);
    }
  }

  /** Looking up in a list that starts with a given pair. */
  lemma GetCons(e: (string, string), rest: Params, k: string)
    ensures Get([e] + rest, k) == if e.0 == k then Some(e.1) else Get(rest, k)
  {
    assert ([e] + rest)[1..] == rest;
  }

  /** Dropping every pair with one key leaves the lookups of other keys alone. */
  lemma {:induction false} DroppedKeyLookup(params: Params, key: string, k: string)
    requires k != key
    ensures Get(Seqs.Filter(OtherKey(key), params), k) == Get(params, k)
  {
    var f := OtherKey(key);
    if params != [] {
      var rest := params[1..];
      DroppedKeyLookup(rest, key, k);
      assert params == [params[0]] + rest;
      Seqs.FilterConcat(f, [params[0]], rest);
      Seqs.FilterSingleton(f, params[0]);
      GetCons(params[0], rest, k);
      if params[0].0 != key {
        assert f(params[0]);
        GetCons(params[0], Seqs.Filter(f, rest), k);
      } else {
        assert !f(params[0]);
        assert Seqs.Filter(f, params) == Seqs.Filter(f, rest);
      }
    }
  }

  // ------------------------------------------------------------------ the hash

  /** `const [key, value] = part.split('=')` and the `key && value` test: the
      pair a piece contributes, if any. */
  function PieceParam(piece: string): (r: Option<(string, string)>)
    ensures r.Some? ==> r.value.0 != "" && r.value.1 != "" && '=' !in r.value.0 && '=' !in r.value.1
  {
    var fields := Text.Split(piece, '=');
    var key := fields[0];
    var value := if |fields| > 1 then fields[1] else "";
    if key != "" && value != "" then Some((key, value)) else None
  }

  /** A piece written `key=value` contributes that pair. */
  lemma PieceOfPair(key: string, value: string)
    requires key != "" && value != "" && '=' !in key && '=' !in value
    ensures PieceParam(key + "=" + value) == Some((key, value))
  {
    Text.SplitWhole(value, '=');
    Text.SplitAfterPiece(key, '=', value);
    assert key + "=" + value == key + ['='] + value;
  }

  /** One `forEach` step: a piece that gives a pair sets that name and leaves
      the others alone; any other piece changes nothing. */
  function ApplyPiece(params: Params, piece: string): (r: Params)
    ensures forall key :: Get(r, key) ==
              if PieceParam(piece).Some? && PieceParam(piece).value.0 == key
              then Some(PieceParam(piece).value.1) else Get(params, key)
  {
    match PieceParam(piece)
    case Some(kv) => SetParam(params, kv.0, kv.1)
    case None => params
  }

  /** `window.location.hash.substring(1)` split on `&`; no pieces when it is empty. */
  function HashPieces(locationHash: string): (r: seq<string>)
    ensures |locationHash| <= 1 <==> r == []
    ensures forall i :: 0 <= i < |r| ==> '&' !in r[i]
    ensures |locationHash| > 1 ==> Text.Join(r, '&') == locationHash[1..]
  {
    var hash := if locationHash == [] then [] else locationHash[1..];
    if hash == [] then []
    else
      Text.JoinSplit(hash, '&');
      Text.Split(hash, '&')
  }

  /** The value the last accepted piece gives a key, if any piece gives it one. */
  function LastValue(pieces: seq<string>, key: string): (r: Option<string>)
    ensures r.Some? ==> exists i :: 0 <= i < |pieces| && PieceParam(pieces[i]) == Some((key, r.value))
  {
    if pieces == [] then None
    else
      var later := LastValue(pieces[1..], key);
      if later.Some? then
        var i :| 0 <= i < |pieces[1..]| && PieceParam(pieces[1..][i]) == Some((key, later.value));
        assert pieces[i + 1] == pieces[1..][i];
        later
      else
        var p := PieceParam(pieces[0]);
        if p.Some? && p.value.0 == key then Some(p.value.1) else None
  }

  /** The `forEach` over all pieces, first to last: each name ends up with
      the value of the last accepted piece for it, or else keeps its value. */
  function ApplyPieces(params: Params, pieces: seq<string>): (r: Params)
    ensures forall key :: Get(r, key) ==
              if LastValue(pieces, key).Some? then LastValue(pieces, key) else Get(params, key)
    decreases |pieces|
  {
    if pieces == [] then params else ApplyPieces(ApplyPiece(params, pieces[0]), pieces[1..])
  }

  /** `getUrlParams` as a value: the query parameters updated by every hash piece. */
  function UrlParams(query: Params, locationHash: string): (r: Params)
    ensures forall key :: Get(r, key) ==
              if LastValue(HashPieces(locationHash), key).Some? then LastValue(HashPieces(locationHash), key)
              else Get(query, key)
  {
    ApplyPieces(query, HashPieces(locationHash))
  }

  /** A hash of two `&`-free pieces splits into exactly those pieces. */
  lemma HashOfTwoPieces(a: string, b: string)
    requires '&' !in a && '&' !in b
    ensures HashPieces("#" + a + "&" + b) == [a, b]
  {
    Text.SplitWhole(b, '&');
    Text.SplitAfterPiece(a, '&', b);
    assert ("#" + a + "&" + b)[1..] == a + ['&'] + b;
  }

  /** With two pieces, the second one's pair wins; the first counts only for a key the second does not give. */
  lemma LastValueOfTwo(a: string, b: string, key: string)
    ensures LastValue([a, b], key) ==
            if PieceParam(b).Some? && PieceParam(b).value.0 == key then Some(PieceParam(b).value.1)
            else if PieceParam(a).Some? && PieceParam(a).value.0 == key then Some(PieceParam(a).value.1)
            else None
  {
    assert [a, b][1..] == [b];
    assert [b][1..] == [];
  }

  /** A later piece for a key wins over an earlier one. */
  lemma LaterPieceWins(query: Params, key: string, first: string, second: string)
    requires key != "" && first != "" && second != ""
    requires '=' !in key && '=' !in first && '=' !in second
    requires '&' !in key && '&' !in first && '&' !in second
    ensures Get(UrlParams(query, "#" + (key + "=" + first) + "&" + (key + "=" + second)), key) == Some(second)
  {
    var a, b := key + "=" + first, key + "=" + second;
    assert '&' !in a && '&' !in b by {
      assert a == key + ['='] + first && b == key + ['='] + second;
    }
    HashOfTwoPieces(a, b);
    PieceOfPair(key, first);
    PieceOfPair(key, second);
    LastValueOfTwo(a, b, key);
  }

  /** `isResetToken`: the type is `recovery` and a non-empty access token is present. */
  function IsResetToken(params: Params): (b: bool)
    ensures b ==> ("type", "recovery") in params
    ensures b ==> exists token :: token != "" && ("access_token", token) in params
  {
    Get(params, "type") == Some("recovery") && Get(params, "access_token").Some?
    && Get(params, "access_token").value != ""
  }

  /** Reset mode from the whole URL: the hash's last `type` (or else the
      query's) is `recovery`, and an access token comes from the hash or is a
      non-empty one in the query. A hash piece never carries an empty value. */
  lemma ResetModeOfUrl(query: Params, locationHash: string)
    ensures var pieces := HashPieces(locationHash);
            var t, a := LastValue(pieces, "type"), LastValue(pieces, "access_token");
            IsResetToken(UrlParams(query, locationHash)) <==>
              && (t == Some("recovery") || (t.None? && Get(query, "type") == Some("recovery")))
              && (a.Some? || (Get(query, "access_token").Some? && Get(query, "access_token").value != ""))
  {
    var pieces := HashPieces(locationHash);
    var a := LastValue(pieces, "access_token");
    if a.Some? {
      var i :| 0 <= i < |pieces| && PieceParam(pieces[i]) == Some(("access_token", a.value));
    }
  }

  /** A recovery link puts the page in reset mode whatever the query says. */
  lemma RecoveryLinkIsReset(query: Params, token: string)
    requires token != "" && '=' !in token && '&' !in token
    ensures IsResetToken(UrlParams(query, "#" + ("access_token" + "=" + token) + "&" + ("type" + "=" + "recovery")))
  {
    var a, b := "access_token" + "=" + token, "type" + "=" + "recovery";
    assert '&' !in a by {
      assert a == "access_token=" + token;
    }
    assert '&' !in b && '=' !in "recovery" && '=' !in "type" && '=' !in "access_token";
    HashOfTwoPieces(a, b);
    PieceOfPair("access_token", token);
    PieceOfPair("type", "recovery");
    assert "type"[0] != "access_token"[0];
    LastValueOfTwo(a, b, "type");
    LastValueOfTwo(a, b, "access_token");
  }

  /** The page's `URLSearchParams` object, changed in place by `set`. */
  class SearchParams {
    var entries: Params

    constructor (init: Params)
      ensures entries == init
    {
      entries := init;
    }

    function GetValue(key: string): (r: Option<string>)
      reads this
      ensures r == Get(entries, key)
    {
      Get(entries, key)
    }

    method Set(key: string, value: string)
      modifies this
      ensures entries == SetParam(old(entries), key, value)
    {
      entries := SetParam(entries, key, value);
    }
  }

  /** `getUrlParams`: copies the query parameters, then applies the hash
      pieces one after another. */
  method GetUrlParams(query: Params, locationHash: string) returns (params: SearchParams)
    ensures fresh(params)
    ensures params.entries == UrlParams(query, locationHash)
  {
    params := new SearchParams(query);
    var hash := if locationHash == [] then [] else locationHash[1..];
    if hash != [] {
      var parts := Text.Split(hash, '&');
      var i := 0;
      while i < |parts|
        invariant 0 <= i <= |parts|
        invariant fresh(params)
        invariant ApplyPieces(params.entries, parts[i..]) == ApplyPieces(query, parts)
      {
        assert parts[i..][1..] == parts[i + 1..];
        ghost var before := params.entries;
        var fields := Text.Split(parts[i], '=');
        var key := fields[0];
        var value := if |fields| > 1 then fields[1] else "";
        if key != "" && value != "" {
          params.Set(key, value);
        }
        assert params.entries == ApplyPiece(before, parts[i]);
        i := i + 1;
      }
    }
  }

  // ------------------------------------------------------------------ the form

  const Mismatch := "Passwords do not match"

  class ResetPasswordPage {
    var password: string
    var confirmPassword: string
    var error: string
    var message: string
    var isLoading: bool

    constructor ()
      ensures password == "" && confirmPassword == "" && error == "" && message == "" && !isLoading
    {
      password, confirmPassword, error, message, isLoading := "", "", "", "", false;
    }

    /** `handleResetPassword` up to the password update: differing entries
        end with the mismatch error, loading off and no update; equal ones
        clear the messages and ask for the new password to be stored. */
    method HandleResetPassword() returns (update: Option<string>)
      modifies this`error, this`message, this`isLoading
      ensures password != confirmPassword ==>
                update == None && error == Mismatch && message == "" && !isLoading
      ensures password == confirmPassword ==>
                update == Some(password) && error == "" && message == "" && isLoading
    {
      isLoading := true;
      error := "";
      message := "";
      if password != confirmPassword {
        error := Mismatch;
        isLoading := false;
        return None;
      }
      update := Some(password);
    }
  }
}
