/**
 * The string helpers of src/utils/helpers.js, and the two bits of string
 * handling the home screen does inline (the blank-query test and the
 * lower-casing of the query).
 *
 * Strings are sequences of characters; only the ASCII letters are case-mapped.
 */
module Helpers {
  import opened Wrappers

  /**
   * A Pokémon id as JavaScript carries it around: a number when it comes from
   * a detail response, a string when it was cut out of a URL. Strict equality
   * (`===`) never equates the two kinds, and neither does equality here.
   */
  datatype Id = Num(n: int) | Str(s: string)

  // ---------------------------------------------------------------------------
  // getPokemonIdFromUrl: `url.split('/').filter(Boolean)` and its last element
  // ---------------------------------------------------------------------------

  /** `s.split('/')`: the pieces between the slashes, empty pieces included. */
  function Split(s: string): (parts: seq<string>)
    ensures |parts| >= 1
    ensures forall i :: 0 <= i < |parts| ==> '/' !in parts[i]
  {
    if s == [] then [[]]
    else
      var rest := Split(s[1..]);
      if s[0] == '/' then [[]] + rest
      else [[s[0]] + rest[0]] + rest[1..]
  }

  /** `parts.join('/')`, the inverse of `Split`. */
  function Join(parts: seq<string>): string
    requires |parts| >= 1
  {
    if |parts| == 1 then parts[0] else parts[0] + "/" + Join(parts[1..])
  }

  /** Joining the pieces back with slashes gives the original string. */
  lemma {:induction false} JoinSplit(s: string)
    ensures Join(Split(s)) == s
  {
    if s != [] {
      var rest := Split(s[1..]);
      JoinSplit(s[1..]);
      if s[0] == '/' {
        assert ([[]] + rest)[1..] == rest;
      } else if |rest| > 1 {
        var parts := [[s[0]] + rest[0]] + rest[1..];
        assert parts[1..] == rest[1..];
        assert Join(parts) == [s[0]] + rest[0] + "/" + Join(rest[1..]);
        assert Join(rest) == rest[0] + "/" + Join(rest[1..]);
        assert s == [s[0]] + s[1..];
      } else {
        assert s == [s[0]] + s[1..];
      }
    }
  }

  /** A slash at the end of a string opens one more, empty, piece. */
  lemma {:induction false} SplitSnocSlash(s: string)
    ensures Split(s + "/") == Split(s) + [[]]
  {
    if s == [] {
      assert s + "/" == "/";
      assert "/"[1..] == [];
    } else {
      assert (s + "/")[1..] == s[1..] + "/";
      assert (s + "/")[0] == s[0];
      SplitSnocSlash(s[1..]);
      var rest := Split(s[1..]);
      if s[0] != '/' {
        assert (rest + [[]])[0] == rest[0];
        assert (rest + [[]])[1..] == rest[1..] + [[]];
      }
    }
  }

  /** Any other character at the end of a string extends the last piece. */
  lemma {:induction false} SplitSnocChar(s: string, c: char)
    requires c != '/'
    ensures var p := Split(s);
      Split(s + [c]) == p[..|p| - 1] + [p[|p| - 1] + [c]]
  {
    if s == [] {
      assert s + [c] == [c];
      assert [c][1..] == [];
      var p := Split([]);
      assert p[..0] + [p[0] + [c]] == [[c]];
      assert [c] + [] == [c];
      assert Split([c]) == [[c]];
    } else {
      assert (s + [c])[1..] == s[1..] + [c];
      assert (s + [c])[0] == s[0];
      SplitSnocChar(s[1..], c);
      var rest := Split(s[1..]);
      var rest' := Split(s[1..] + [c]);
      if s[0] != '/' {
        assert Split(s) == [[s[0]] + rest[0]] + rest[1..];
        assert Split(s + [c]) == [[s[0]] + rest'[0]] + rest'[1..];
        ExtendLastPiece(s[0], rest, rest', c);
      }
    }
  }

  /** Prepending to the first piece commutes with extending the last one. */
  lemma ExtendLastPiece(h: char, rest: seq<string>, rest': seq<string>, c: char)
    requires |rest| >= 1
    requires rest' == rest[..|rest| - 1] + [rest[|rest| - 1] + [c]]
    ensures var p := [[h] + rest[0]] + rest[1..];
      [[h] + rest'[0]] + rest'[1..] == p[..|p| - 1] + [p[|p| - 1] + [c]]
  {
    if |rest| == 1 {
      assert rest'[1..] == [] && rest'[0] == rest[0] + [c];
      assert [h] + (rest[0] + [c]) == [h] + rest[0] + [c];
    } else {
      assert rest'[0] == rest[0];
      assert rest'[1..] == rest[1..|rest| - 1] + [rest[|rest| - 1] + [c]];
    }
  }

  /** `parts.filter(Boolean)`: the non-empty pieces, in order. */
  function Compact(parts: seq<string>): (r: seq<string>)
    ensures |r| <= |parts|
    ensures forall x :: x in r <==> x in parts && x != []
  {
    if parts == [] then []
    else if parts[0] == [] then Compact(parts[1..])
    else [parts[0]] + Compact(parts[1..])
  }

  /** Filtering distributes over concatenation (so it keeps relative order). */
  lemma {:induction false} CompactAppend(a: seq<string>, b: seq<string>)
    ensures Compact(a + b) == Compact(a) + Compact(b)
  {
    if a != [] {
      assert (a + b)[0] == a[0];
      assert (a + b)[1..] == a[1..] + b;
      CompactAppend(a[1..], b);
    } else {
      assert a + b == b;
    }
  }

  /**
   * `getPokemonIdFromUrl(url)`: the last non-empty piece between slashes.
   * When there is none (`""`, `"///"`) the source indexes past the end and
   * gets `undefined`, here `None`.
   */
  function GetPokemonIdFromUrl(url: string): (r: Option<string>)
    ensures r.None? <==> forall i :: 0 <= i < |url| ==> url[i] == '/'
    ensures r.Some? ==> r.value != [] && '/' !in r.value
  {
    GetIdIsLastSegment(url);
    var parts := Compact(Split(url));
    if |parts| == 0 then None else Some(parts[|parts| - 1])
  }

  /** `s` without the slashes at its end. */
  function DropTrailingSlashes(s: string): (r: string)
    ensures |r| <= |s| && r == s[..|r|]
    ensures forall i :: |r| <= i < |s| ==> s[i] == '/'
    ensures r == [] || r[|r| - 1] != '/'
  {
    if s != [] && s[|s| - 1] == '/' then DropTrailingSlashes(s[..|s| - 1]) else s
  }

  /** The longest run at the end of `s` that holds no slash. */
  function TrailingRun(s: string): (r: string)
    ensures |r| <= |s| && r == s[|s| - |r|..]
    ensures '/' !in r
    ensures |r| == |s| || s[|s| - |r| - 1] == '/'
  {
    if s != [] && s[|s| - 1] != '/' then TrailingRun(s[..|s| - 1]) + [s[|s| - 1]] else []
  }

  /**
   * A reference definition that reads the URL from its end: skip the
   * trailing slashes, then take the characters back to the previous slash.
   */
  function LastSegment(url: string): Option<string>
  {
    var u := DropTrailingSlashes(url);
    if u == [] then None else Some(TrailingRun(u))
  }

  /** The last piece of a split is the slash-free run the string ends with. */
  lemma {:induction false} LastPieceIsTrailingRun(s: string)
    ensures var p := Split(s); p[|p| - 1] == TrailingRun(s)
    decreases |s|
  {
    if s != [] {
      var s', c := s[..|s| - 1], s[|s| - 1];
      assert s == s' + [c];
      if c == '/' {
        SplitSnocSlash(s');
      } else {
        SplitSnocChar(s', c);
      }
      LastPieceIsTrailingRun(s');
    }
  }

  /** Split-filter-last and the right-to-left reading agree on every URL. */
  lemma {:induction false} GetIdIsLastSegment(url: string)
    ensures var parts := Compact(Split(url));
      (if |parts| == 0 then None else Some(parts[|parts| - 1])) == LastSegment(url)
    decreases |url|
  {
    if url != [] {
      if url[|url| - 1] == '/' {
        GetIdIsLastSegment(url[..|url| - 1]);
        EndSlashSameSegment(url);
      } else {
        EndCharSegment(url);
      }
    }
  }

  /** A slash at the end changes neither the kept pieces nor the reference reading. */
  lemma EndSlashSameSegment(url: string)
    requires url != [] && url[|url| - 1] == '/'
    ensures var s := url[..|url| - 1];
      Compact(Split(url)) == Compact(Split(s)) && LastSegment(url) == LastSegment(s)
  {
    var s := url[..|url| - 1];
    assert url == s + ['/'];
    var p := Split(s);
    SplitSnocSlash(s);
    CompactAppend(p, [[]]);
    assert Compact([[]]) == [];
  }

  /** When a URL ends in another character, the trailing run is the last kept piece. */
  lemma EndCharSegment(url: string)
    requires url != [] && url[|url| - 1] != '/'
    ensures var parts := Compact(Split(url));
      |parts| > 0 && LastSegment(url) == Some(parts[|parts| - 1])
  {
    var s, c := url[..|url| - 1], url[|url| - 1];
    assert url == s + [c];
    var p := Split(s);
    SplitSnocChar(s, c);
    LastPieceIsTrailingRun(s);
    var last := p[|p| - 1] + [c];
    CompactAppend(p[..|p| - 1], [last]);
    assert Compact([last]) == [last];
    assert DropTrailingSlashes(url) == url;
    assert TrailingRun(url) == TrailingRun(s) + [c];
  }

  /** A trailing slash does not change the id read from a URL. */
  lemma TrailingSlashIgnored(url: string)
    ensures GetPokemonIdFromUrl(url + "/") == GetPokemonIdFromUrl(url)
  {
    GetIdIsLastSegment(url);
    GetIdIsLastSegment(url + "/");
    assert DropTrailingSlashes(url + "/") == DropTrailingSlashes(url) by {
      assert (url + "/")[..|url|] == url;
    }
    assert LastSegment(url + "/") == LastSegment(url);
  }

  /** After the last slash, the remainder is the id. */
  lemma LastPieceAfterSlash(p: string, x: string)
    requires x != [] && '/' !in x
    ensures GetPokemonIdFromUrl(p + "/" + x) == Some(x)
  {
    var s := p + "/" + x;
    GetIdIsLastSegment(s);
    assert s[|s| - 1] == x[|x| - 1];
    assert DropTrailingSlashes(s) == s;
    var r := TrailingRun(s);
    assert s[|s| - |x| - 1] == '/';
    assert r == s[|s| - |x|..] == x;
  }

  /** The URL prefix the app builds for one Pokémon, without its last slash. */
  const PokemonBase: string := "https://pokeapi.co/api/v2/pokemon"

  /** `https://pokeapi.co/api/v2/pokemon/${id}/` */
  function PokemonUrl(id: string): (r: string)
    ensures |r| == |PokemonBase| + |id| + 2
  {
    PokemonBase + "/" + id + "/"
  }

  /** Reading the id back out of a built URL gives the id that went in. */
  lemma UrlRoundTrip(id: string)
    requires id != [] && '/' !in id
    ensures GetPokemonIdFromUrl(PokemonUrl(id)) == Some(id)
  {
    LastPieceAfterSlash(PokemonBase, id);
    TrailingSlashIgnored(PokemonBase + "/" + id);
  }

  // ---------------------------------------------------------------------------
  // String(id): decimal digits of an integer
  // ---------------------------------------------------------------------------

  predicate IsDigit(c: char) {
    '0' <= c <= '9'
  }

  function DigitChar(d: nat): (c: char)
    requires d < 10
    ensures IsDigit(c)
  {
    ('0' as int + d) as char
  }

  /** `String(n)` for a non-negative integer: shortest decimal form. */
  function NatToString(n: nat): (r: string)
    ensures r != []
    ensures forall i :: 0 <= i < |r| ==> IsDigit(r[i])
    ensures r[0] == '0' <==> n == 0
  {
    if n < 10 then [DigitChar(n)] else NatToString(n / 10) + [DigitChar(n % 10)]
  }

  /** The value of a string of decimal digits. */
  function DigitsValue(s: string): nat
    requires forall i :: 0 <= i < |s| ==> IsDigit(s[i])
  {
    if s == [] then 0
    else
      assert IsDigit(s[|s| - 1]);
      DigitsValue(s[..|s| - 1]) * 10 + (s[|s| - 1] as int - '0' as int)
  }

  /** Reading the decimal form back gives the number: `String` loses nothing. */
  lemma {:induction false} NatToStringRoundTrip(n: nat)
    ensures DigitsValue(NatToString(n)) == n
  {
    if n >= 10 {
      var r := NatToString(n);
      NatToStringRoundTrip(n / 10);
      assert r[..|r| - 1] == NatToString(n / 10);
    }
  }

  /** Two numbers have the same decimal form only if they are equal. */
  lemma NatToStringInjective(a: nat, b: nat)
    requires NatToString(a) == NatToString(b)
    ensures a == b
  {
    NatToStringRoundTrip(a);
    NatToStringRoundTrip(b);
  }

  /** `String(n)` for any integer: a minus sign before the digits of a negative. */
  function IntToString(n: int): (r: string)
    ensures r != [] && '/' !in r
    ensures r[0] == '-' <==> n < 0
  {
    if n < 0 then "-" + NatToString(-n) else NatToString(n)
  }

  /** `String(n) == String(m)` only for `n == m`. */
  lemma IntToStringInjective(a: int, b: int)
    requires IntToString(a) == IntToString(b)
    ensures a == b
  {
    if a < 0 {
      assert IntToString(a)[1..] == NatToString(-a);
      assert IntToString(b)[1..] == NatToString(-b);
      NatToStringInjective(-a, -b);
    } else {
      NatToStringInjective(a, b);
    }
  }

  /** `String(id)` for either kind of id: a string is itself, a number its decimal form. */
  function IdString(id: Id): (r: string)
    ensures id.Str? ==> r == id.s
    ensures id.Num? ==> r != [] && '/' !in r && (r[0] == '-' <==> id.n < 0)
  {
    match id
    case Num(n) => IntToString(n)
    case Str(s) => s
  }

  // ---------------------------------------------------------------------------
  // formatPokemonId: `#${String(id).padStart(3, '0')}`
  // ---------------------------------------------------------------------------

  function Repeat(c: char, n: nat): (r: string)
    ensures |r| == n && forall i :: 0 <= i < n ==> r[i] == c
  {
    if n == 0 then [] else Repeat(c, n - 1) + [c]
  }

  function Max(a: int, b: int): int {
    if a < b then b else a
  }

  /** `s.padStart(width, fill)` with a one-character fill: never truncates. */
  function PadStart(s: string, width: nat, fill: char): (r: string)
    ensures |r| == Max(width, |s|)
    ensures r[|r| - |s|..] == s
    ensures forall i :: 0 <= i < |r| - |s| ==> r[i] == fill
  {
    if |s| >= width then s else Repeat(fill, width - |s|) + s
  }

  /** `formatPokemonId(id)`: a hash, then the id zero-padded to three places. */
  function FormatPokemonId(id: Id): (r: string)
    ensures |r| == 1 + Max(3, |IdString(id)|)
    ensures r[0] == '#'
    ensures r[|r| - |IdString(id)|..] == IdString(id)
    ensures forall i :: 1 <= i < |r| - |IdString(id)| ==> r[i] == '0'
  {
    "#" + PadStart(IdString(id), 3, '0')
  }

  // ---------------------------------------------------------------------------
  // capitalize and ASCII case mapping
  // ---------------------------------------------------------------------------

  predicate IsLower(c: char) {
    'a' <= c <= 'z'
  }

  predicate IsUpper(c: char) {
    'A' <= c <= 'Z'
  }

  /** `toUpperCase` of one character, on the ASCII letters only. */
  function ToUpperChar(c: char): (u: char)
    ensures !IsLower(u)
    ensures IsLower(c) ==> IsUpper(u) && ToLowerChar(u) == c
    ensures IsLower(c) ==> u as int - 'A' as int == c as int - 'a' as int
    ensures !IsLower(c) ==> u == c
  {
    if IsLower(c) then (c as int - 32) as char else c
  }

  /** `toLowerCase` of one character, on the ASCII letters only. */
  function ToLowerChar(c: char): (l: char)
    ensures !IsUpper(l)
    ensures IsUpper(c) ==> IsLower(l)
    ensures IsUpper(c) ==> l as int - 'a' as int == c as int - 'A' as int
    ensures !IsUpper(c) ==> l == c
  {
    if IsUpper(c) then (c as int + 32) as char else c
  }

  /** `s.toLowerCase()` with ASCII case mapping. */
  function ToLower(s: string): (r: string)
    ensures |r| == |s|
    ensures forall i :: 0 <= i < |s| ==> !IsUpper(r[i])
    ensures forall i :: 0 <= i < |s| ==> !IsUpper(s[i]) ==> r[i] == s[i]
    ensures forall i :: 0 <= i < |s| ==> r[i] == ToLowerChar(s[i])
  {
    seq(|s|, i requires 0 <= i < |s| => ToLowerChar(s[i]))
  }

  /** Lower-casing twice is lower-casing once. */
  lemma ToLowerIdempotent(s: string)
    ensures ToLower(ToLower(s)) == ToLower(s)
  {
  }

  /**
   * `capitalize(str)`: the empty string for a falsy argument, otherwise the
   * first character upper-cased before the rest.
   */
  function Capitalize(s: string): (r: string)
    ensures |r| == |s|
    ensures s != [] ==> !IsLower(r[0]) && r[1..] == s[1..]
    ensures s != [] && !IsLower(s[0]) ==> r == s
    ensures s != [] && IsLower(s[0]) ==>
      IsUpper(r[0]) && r[0] as int - 'A' as int == s[0] as int - 'a' as int
  {
    if s == [] then "" else [ToUpperChar(s[0])] + s[1..]
  }

  /** Capitalising a capitalised string changes nothing. */
  lemma CapitalizeIdempotent(s: string)
    ensures Capitalize(Capitalize(s)) == Capitalize(s)
  {
  }

  // ---------------------------------------------------------------------------
  // trim: the blank-query test of handleSearch
  // ---------------------------------------------------------------------------

  /** ECMAScript WhiteSpace and LineTerminator code points, which `trim` removes. */
  predicate IsWhiteSpace(c: char) {
    || c == '\t' || c == '\n' || c == '\U{000B}' || c == '\U{000C}' || c == '\r'
    || c == ' ' || c == '\U{00A0}' || c == '\U{1680}'
    || ('\U{2000}' <= c <= '\U{200A}')
    || c == '\U{2028}' || c == '\U{2029}' || c == '\U{202F}' || c == '\U{205F}'
    || c == '\U{3000}' || c == '\U{FEFF}'
  }

  /** `s` without the white space at its start. */
  function TrimStart(s: string): (r: string)
    ensures |r| <= |s| && r == s[|s| - |r|..]
    ensures forall i :: 0 <= i < |s| - |r| ==> IsWhiteSpace(s[i])
    ensures r != [] ==> !IsWhiteSpace(r[0])
  {
    if s != [] && IsWhiteSpace(s[0]) then
      var t := TrimStart(s[1..]);
      assert forall i :: 1 <= i < |s| - |t| ==> s[i] == s[1..][i - 1];
      t
    else s
  }

  /** `s` without the white space at its end. */
  function TrimEnd(s: string): (r: string)
    ensures |r| <= |s| && r == s[..|r|]
    ensures forall i :: |r| <= i < |s| ==> IsWhiteSpace(s[i])
    ensures r != [] ==> !IsWhiteSpace(r[|r| - 1])
  {
    if s != [] && IsWhiteSpace(s[|s| - 1]) then TrimEnd(s[..|s| - 1]) else s
  }

  /** `s.trim()`: what is left starts and ends with a character that is not white space. */
  function Trim(s: string): (r: string)
    ensures |r| <= |s|
    ensures r != [] ==> !IsWhiteSpace(r[0]) && !IsWhiteSpace(r[|r| - 1])
  {
    TrimEnd(TrimStart(s))
  }

  /** `!s.trim()` holds exactly for the strings made of white space only. */
  lemma BlankIffWhiteSpace(s: string)
    ensures Trim(s) == [] <==> forall i :: 0 <= i < |s| ==> IsWhiteSpace(s[i])
  {
    var t := TrimStart(s);
    if t != [] {
      assert !IsWhiteSpace(s[|s| - |t|]);
      assert TrimEnd(t) != [];
    }
  }
}
