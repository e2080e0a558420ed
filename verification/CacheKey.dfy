/** The escaping of query strings in net/url, on strings of bytes (one char below 256 for each byte);
    sections 2.1 and 2.3 of RFC 3986 for the escapes and the unreserved characters. */
module QueryText {
  import opened Wrappers

  ghost predicate IsBytes(s: string) {
    forall i :: 0 <= i < |s| ==> s[i] as int < 256
  }

  predicate Unreserved(c: char) {
    'A' <= c <= 'Z' || 'a' <= c <= 'z' || '0' <= c <= '9' || c == '-' || c == '_' || c == '.' || c == '~'
  }

  function HexDigit(n: nat): char
    requires n < 16
  {
    "0123456789ABCDEF"[n]
  }

  function FromHex(c: char): Option<nat> {
    if '0' <= c <= '9' then Some(c as nat - '0' as nat)
    else if 'a' <= c <= 'f' then Some(c as nat - 'a' as nat + 10)
    else if 'A' <= c <= 'F' then Some(c as nat - 'A' as nat + 10)
    else None
  }

  // How a space is written: "+" by url.QueryEscape, "%20" after the replacement of canonicalQuery.
  predicate IsSpace(space: string) {
    space == "+" || space == "%20"
  }

  function EscapeChar(c: char, space: string): string {
    if Unreserved(c) then [c]
    else if c == ' ' then space
    else ['%', HexDigit(c as nat / 16 % 16), HexDigit(c as nat % 16)]
  }

  function Escape(s: string, space: string): string {
    if s == "" then "" else EscapeChar(s[0], space) + Escape(s[1..], space)
  }

  function Unescape(s: string): Option<string> {
    if s == "" then Some("")
    else if s[0] == '%' then
      if |s| < 3 || FromHex(s[1]).None? || FromHex(s[2]).None? then None
      else
        var rest := Unescape(s[3..]);
        if rest.None? then None
        else Some([(16 * FromHex(s[1]).value + FromHex(s[2]).value) as char] + rest.value)
    else
      var rest := Unescape(s[1..]);
      if rest.None? then None else Some([if s[0] == '+' then ' ' else s[0]] + rest.value)
  }

  lemma UnescapeChar(c: char, space: string, rest: string)
    requires c as int < 256 && IsSpace(space)
    ensures Unescape(EscapeChar(c, space) + rest) ==
      if Unescape(rest).None? then None else Some([c] + Unescape(rest).value)
  {
    var text := EscapeChar(c, space) + rest;
    assert text[|EscapeChar(c, space)|..] == rest;
    HexRoundTrip(c as nat);
  }

  lemma HexRoundTrip(n: nat)
    requires n < 256
    ensures FromHex(HexDigit(n / 16 % 16)) == Some(n / 16)
    ensures FromHex(HexDigit(n % 16)) == Some(n % 16)
  {
    hide FromHex, HexDigit;
    assert n / 16 % 16 == n / 16;
    FromHexDigit(n / 16);
    FromHexDigit(n % 16);
  }

  lemma FromHexDigit(d: nat)
    requires d < 16
    ensures FromHex(HexDigit(d)) == Some(d)
  {}

  lemma {:induction false} UnescapeInverse(s: string, space: string)
    requires IsBytes(s) && IsSpace(space)
    ensures Unescape(Escape(s, space)) == Some(s)
  {
    if s != "" {
      UnescapeInverse(s[1..], space);
      UnescapeChar(s[0], space, Escape(s[1..], space));
      assert s == [s[0]] + s[1..];
    }
  }

  // ------------------------------------------------------------ the text of an escape

  /** Letters, digits and the four marks of section 2.3 of RFC 3986 stand for themselves. */
  lemma {:induction false} EscapePlain(s: string, space: string)
    requires forall i :: 0 <= i < |s| ==>
      || 'A' <= s[i] <= 'Z' || 'a' <= s[i] <= 'z' || '0' <= s[i] <= '9'
      || s[i] == '-' || s[i] == '_' || s[i] == '.' || s[i] == '~'
    ensures Escape(s, space) == s
  {
    if s != "" {
      EscapePlain(s[1..], space);
      assert s == [s[0]] + s[1..];
    }
  }

  /** Any other byte is written as its two hexadecimal digits in capitals, a space as asked for. */
  lemma EscapeOther(c: char, space: string)
    requires c as int < 256
    requires !('A' <= c <= 'Z' || 'a' <= c <= 'z' || '0' <= c <= '9')
    requires c != '-' && c != '_' && c != '.' && c != '~'
    ensures Escape([c], space) ==
      if c == ' ' then space
      else ['%', "0123456789ABCDEF"[c as int / 16], "0123456789ABCDEF"[c as int % 16]]
  {
    assert Escape([c], space) == EscapeChar(c, space) + Escape([c][1..], space);
  }

  /** And a string is escaped byte by byte, so the three lemmas fix every escape. */
  lemma {:induction false} EscapeAppend(a: string, b: string, space: string)
    ensures Escape(a + b, space) == Escape(a, space) + Escape(b, space)
  {
    if a == "" {
      assert a + b == b;
    } else {
      assert (a + b)[1..] == a[1..] + b;
      EscapeAppend(a[1..], b, space);
    }
  }

  // The byte c is outside the alphabet and its escape stands at i.
  predicate EscapedAt(q: string, i: nat, c: char) {
    && c as int < 256
    && !('A' <= c <= 'Z' || 'a' <= c <= 'z' || '0' <= c <= '9')
    && c != '-' && c != '_' && c != '.' && c != '~'
    && i + 2 < |q|
    && q[i..i + 3] == ['%', "0123456789ABCDEF"[c as int / 16], "0123456789ABCDEF"[c as int % 16]]
  }

  // A '%' begins an escape; any other character is in the alphabet or separates names and values.
  ghost predicate QueryChar(q: string, i: nat)
    requires i < |q|
  {
    || (exists c :: EscapedAt(q, i, c))
    || 'A' <= q[i] <= 'Z' || 'a' <= q[i] <= 'z' || '0' <= q[i] <= '9'
    || q[i] == '-' || q[i] == '_' || q[i] == '.' || q[i] == '~' || q[i] == '=' || q[i] == '&'
  }

  ghost predicate IsQueryText(q: string) {
    forall i :: 0 <= i < |q| ==> QueryChar(q, i)
  }

  lemma TextAppend(a: string, b: string)
    requires IsQueryText(a) && IsQueryText(b)
    ensures IsQueryText(a + b)
  {
    forall i | 0 <= i < |a + b| ensures QueryChar(a + b, i) {
      if i < |a| {
        assert QueryChar(a, i);
        if c :| EscapedAt(a, i, c) {
          assert (a + b)[i..i + 3] == a[i..i + 3];
          assert EscapedAt(a + b, i, c);
        }
      } else {
        var j := i - |a|;
        assert QueryChar(b, j);
        if c :| EscapedAt(b, j, c) {
          assert (a + b)[i..i + 3] == b[j..j + 3];
          assert EscapedAt(a + b, i, c);
        }
      }
    }
  }

  lemma HexIsListed(n: nat)
    requires n < 16
    ensures var d := HexDigit(n); d == "0123456789ABCDEF"[n] && ('A' <= d <= 'Z' || '0' <= d <= '9')
  {}

  lemma SpaceIsText()
    ensures IsQueryText("%20")
  {
    assert "%20"[0..3] == "%20";
    assert EscapedAt("%20", 0, ' ');
  }

  lemma EscapedByteIsText(c: char)
    requires c as int < 256
    ensures IsQueryText(EscapeChar(c, "%20"))
  {
    hide HexDigit;
    if c == ' ' {
      SpaceIsText();
    } else if !Unreserved(c) {
      HexIsListed(c as nat / 16 % 16);
      HexIsListed(c as nat % 16);
      TripleIsText(c, HexDigit(c as nat / 16 % 16), HexDigit(c as nat % 16));
    }
  }

  lemma TripleIsText(c: char, high: char, low: char)
    requires c as int < 256 && c != ' ' && !Unreserved(c)
    requires high == "0123456789ABCDEF"[c as int / 16] && ('A' <= high <= 'Z' || '0' <= high <= '9')
    requires low == "0123456789ABCDEF"[c as int % 16] && ('A' <= low <= 'Z' || '0' <= low <= '9')
    ensures IsQueryText(['%', high, low])
  {
    var q := ['%', high, low];
    assert q[0..3] == q;
    assert EscapedAt(q, 0, c);
  }

  lemma {:induction false} EscapeIsText(s: string)
    requires IsBytes(s)
    ensures IsQueryText(Escape(s, "%20"))
  {
    hide IsQueryText, EscapeChar;
    if s == "" {
      EmptyIsText();
    } else {
      EscapeIsText(s[1..]);
      EscapedByteIsText(s[0]);
      TextAppend(EscapeChar(s[0], "%20"), Escape(s[1..], "%20"));
    }
  }

  lemma EmptyIsText()
    ensures IsQueryText("")
  {}

  lemma SeparatorsAreText()
    ensures IsQueryText("=") && IsQueryText("&")
  {}

  predicate Clean(c: char, space: string) {
    Unreserved(c) || c == '%' || (c == '+' && space == "+")
  }

  // No separator survives escaping.
  lemma {:induction false} EscapeIsClean(s: string, space: string)
    requires IsSpace(space)
    ensures forall i :: 0 <= i < |Escape(s, space)| ==> Clean(Escape(s, space)[i], space)
  {
    if s != "" {
      EscapeIsClean(s[1..], space);
      HexIsClean(s[0] as nat / 16 % 16);
      HexIsClean(s[0] as nat % 16);
    }
  }

  lemma HexIsClean(n: nat)
    requires n < 16
    ensures Unreserved(HexDigit(n))
  {}

  // strings.ReplaceAll(s, "+", "%20")
  function ReplacePlus(s: string): string {
    if s == "" then "" else (if s[0] == '+' then "%20" else [s[0]]) + ReplacePlus(s[1..])
  }

  lemma {:induction false} ReplaceAppend(a: string, b: string)
    ensures ReplacePlus(a + b) == ReplacePlus(a) + ReplacePlus(b)
  {
    if a == "" {
      assert a + b == b;
    } else {
      assert (a + b)[1..] == a[1..] + b;
      ReplaceAppend(a[1..], b);
    }
  }

  lemma ReplaceChar(c: char)
    ensures ReplacePlus(EscapeChar(c, "+")) == EscapeChar(c, "%20")
  {
    if !Unreserved(c) && c != ' ' {
      var high, low := HexDigit(c as nat / 16 % 16), HexDigit(c as nat % 16);
      HexIsClean(c as nat / 16 % 16);
      HexIsClean(c as nat % 16);
      var text := ['%', high, low];
      assert text[1..] == [high, low] && [high, low][1..] == [low];
      assert ReplacePlus([low]) == [low];
      assert ReplacePlus([high, low]) == [high] + ReplacePlus([low]);
    } else {
      assert EscapeChar(c, "+")[1..] == "";
    }
  }

  lemma {:induction false} ReplaceEscape(s: string)
    ensures ReplacePlus(Escape(s, "+")) == Escape(s, "%20")
  {
    if s != "" {
      ReplaceEscape(s[1..]);
      ReplaceChar(s[0]);
      ReplaceAppend(EscapeChar(s[0], "+"), Escape(s[1..], "+"));
    }
  }

  // ------------------------------------------------------------ lists of pairs

  type Pair = (string, string)

  function PairText(p: Pair, space: string): string {
    Escape(p.0, space) + "=" + Escape(p.1, space)
  }

  function Join(pairs: seq<Pair>, space: string): string {
    if pairs == [] then ""
    else if |pairs| == 1 then PairText(pairs[0], space)
    else PairText(pairs[0], space) + "&" + Join(pairs[1..], space)
  }

  /** Name and value are separated by '=', pairs by '&', and nothing else is added. */
  lemma {:induction false} JoinLaws(name: string, value: string, a: seq<Pair>, b: seq<Pair>, space: string)
    ensures Join([], space) == ""
    ensures Join([(name, value)], space) == Escape(name, space) + "=" + Escape(value, space)
    ensures a != [] && b != [] ==> Join(a + b, space) == Join(a, space) + "&" + Join(b, space)
  {
    if a != [] && b != [] {
      assert (a + b)[1..] == a[1..] + b;
      if |a| == 1 {
        assert a[1..] + b == b;
      } else {
        JoinLaws(name, value, a[1..], b, space);
      }
    }
  }

  lemma {:induction false} JoinIsText(pairs: seq<Pair>)
    requires BytePairs(pairs)
    ensures IsQueryText(Join(pairs, "%20"))
  {
    hide IsQueryText, Escape;
    if pairs == [] {
      EmptyIsText();
    } else {
      SeparatorsAreText();
      var name, value := Escape(pairs[0].0, "%20"), Escape(pairs[0].1, "%20");
      EscapeIsText(pairs[0].0);
      EscapeIsText(pairs[0].1);
      TextAppend(name, "=");
      TextAppend(name + "=", value);
      if |pairs| > 1 {
        JoinIsText(pairs[1..]);
        TextAppend(name + "=" + value, "&");
        TextAppend(name + "=" + value + "&", Join(pairs[1..], "%20"));
      }
    }
  }

  function IndexOf(s: string, c: char): (i: nat)
    ensures i <= |s| && (i < |s| ==> s[i] == c)
    ensures forall j :: 0 <= j < i ==> s[j] != c
  {
    if s == "" || s[0] == c then 0 else 1 + IndexOf(s[1..], c)
  }

  lemma IndexUnique(s: string, c: char, i: nat)
    requires i <= |s| && (i < |s| ==> s[i] == c)
    requires forall j :: 0 <= j < i ==> s[j] != c
    ensures IndexOf(s, c) == i
  {}

  // strings.Cut
  function Before(s: string, c: char): string {
    s[..IndexOf(s, c)]
  }

  function Beyond(s: string, c: char): string {
    if IndexOf(s, c) < |s| then s[IndexOf(s, c) + 1..] else ""
  }

  lemma CutJoined(a: string, c: char, b: string)
    requires c !in a
    ensures Before(a + [c] + b, c) == a && Beyond(a + [c] + b, c) == b
  {
    IndexUnique(a + [c] + b, c, |a|);
  }

  lemma CutAbsent(a: string, c: char)
    requires c !in a
    ensures Before(a, c) == a && Beyond(a, c) == ""
  {}

  // One piece of a query: nothing when it is empty, holds a semicolon or is badly escaped.
  function ParsePiece(piece: string): seq<Pair> {
    var key, value := Unescape(Before(piece, '=')), Unescape(Beyond(piece, '='));
    if ';' in piece || piece == "" || key.None? || value.None? then [] else [(key.value, value.value)]
  }

  // url.ParseQuery, keeping the pairs in the order of the query.
  function ParseQuery(query: string): seq<Pair>
    decreases |query|
  {
    if query == "" then [] else ParsePiece(Before(query, '&')) + ParseQuery(Beyond(query, '&'))
  }

  ghost predicate BytePairs(pairs: seq<Pair>) {
    forall i :: 0 <= i < |pairs| ==> IsBytes(pairs[i].0) && IsBytes(pairs[i].1)
  }

  lemma ParsePairText(p: Pair, space: string)
    requires IsBytes(p.0) && IsBytes(p.1) && IsSpace(space)
    ensures ParsePiece(PairText(p, space)) == [p]
    ensures '&' !in PairText(p, space) && PairText(p, space) != ""
  {
    hide Escape, Unescape;
    EscapeIsClean(p.0, space);
    EscapeIsClean(p.1, space);
    CutJoined(Escape(p.0, space), '=', Escape(p.1, space));
    UnescapeInverse(p.0, space);
    UnescapeInverse(p.1, space);
  }

  /** Parsing what was joined gives the pairs back, in order, whichever way spaces are written. */
  lemma {:induction false} ParseJoined(pairs: seq<Pair>, space: string)
    requires BytePairs(pairs) && IsSpace(space)
    ensures ParseQuery(Join(pairs, space)) == pairs
  {
    hide PairText, ParsePiece, IsBytes, IsSpace;
    if pairs != [] {
      ParsePairText(pairs[0], space);
      if |pairs| == 1 {
        CutAbsent(PairText(pairs[0], space), '&');
      } else {
        CutJoined(PairText(pairs[0], space), '&', Join(pairs[1..], space));
        ParseJoined(pairs[1..], space);
      }
    }
  }

  lemma {:induction false} ReplaceJoined(pairs: seq<Pair>)
    ensures ReplacePlus(Join(pairs, "+")) == Join(pairs, "%20")
  {
    if pairs != [] {
      ReplacePair(pairs[0]);
      if |pairs| > 1 {
        ReplaceJoined(pairs[1..]);
        ReplaceAppend(PairText(pairs[0], "+"), "&");
        ReplaceAppend(PairText(pairs[0], "+") + "&", Join(pairs[1..], "+"));
        assert ReplacePlus("&") == "&";
      }
    }
  }

  lemma ReplacePair(p: Pair)
    ensures ReplacePlus(PairText(p, "+")) == PairText(p, "%20")
  {
    ReplaceEscape(p.0);
    ReplaceEscape(p.1);
    ReplaceAppend(Escape(p.0, "+"), "=");
    ReplaceAppend(Escape(p.0, "+") + "=", Escape(p.1, "+"));
    assert ReplacePlus("=") == "=";
  }

  // What a canonical query is made of; none of it is a '?' or a '|'.
  lemma {:induction false} JoinIsClean(pairs: seq<Pair>)
    ensures forall i :: 0 <= i < |Join(pairs, "%20")| ==>
      Clean(Join(pairs, "%20")[i], "%20") || Join(pairs, "%20")[i] == '=' || Join(pairs, "%20")[i] == '&'
  {
    if pairs != [] {
      EscapeIsClean(pairs[0].0, "%20");
      EscapeIsClean(pairs[0].1, "%20");
      if |pairs| > 1 {
        JoinIsClean(pairs[1..]);
      }
    }
  }
}

/** The cache key: canonicalQuery over url.Values, and the key printed from method, path, query,
    user agent and token. */
module CacheKey {
  import opened Sorting
  import opened QueryText

  type Values = map<string, seq<string>>

  function Listing(values: Values, key: string): seq<string> {
    if key in values then values[key] else []
  }

  predicate Excluded(key: string) {
    key == "token" || key == "s"
  }

  function Filtered(values: Values): Values {
    map key | key in values && !Excluded(key) :: SortStrings(values[key])
  }

  function KeyPairs(key: string, values: seq<string>): seq<Pair> {
    seq(|values|, i requires 0 <= i < |values| => (key, values[i]))
  }

  // The pairs in the order in which url.Values.Encode prints them.
  function PairsOf(keys: seq<string>, values: Values): seq<Pair> {
    if keys == [] then [] else KeyPairs(keys[0], Listing(values, keys[0])) + PairsOf(keys[1..], values)
  }

  // url.Values.Encode
  ghost function Encode(values: Values): string {
    Join(PairsOf(Ascending(values.Keys), values), "+")
  }

  ghost function CanonicalQuery(values: Values): string {
    ReplacePlus(Encode(Filtered(values)))
  }

  method SortedKeys(values: Values) returns (keys: seq<string>)
    ensures keys == Ascending(values.Keys)
  {
    keys := [];
    var rest := values.Keys;
    while rest != {}
      invariant rest <= values.Keys
      invariant multiset(keys) == multiset(values.Keys - rest)
    {
      var key :| key in rest;
      keys := keys + [key];
      assert values.Keys - (rest - {key}) == (values.Keys - rest) + {key};
      rest := rest - {key};
    }
    assert values.Keys - rest == values.Keys;
    SortEnumeration(values.Keys, keys);
    keys := SortStrings(keys);
  }

  method Canonical(values: Values) returns (query: string)
    ensures query == CanonicalQuery(values)
  {
    hide Ascending, SortStrings, PairsOf, Join, ReplacePlus, Excluded;
    var filtered: Values := map[];
    var rest := values.Keys;
    while rest != {}
      invariant rest <= values.Keys
      invariant filtered == map key | key in values && key !in rest && !Excluded(key) :: SortStrings(values[key])
    {
      var key :| key in rest;
      rest := rest - {key};
      if !Excluded(key) {
        filtered := filtered[key := SortStrings(values[key])];
      }
    }
    assert filtered == Filtered(values);
    var keys := SortedKeys(filtered);
    query := ReplacePlus(Join(PairsOf(keys, filtered), "+"));
  }

  // ------------------------------------------------------------ reading a query back

  ghost predicate ByteValues(values: Values) {
    forall key :: key in values ==> IsBytes(key) && forall i :: 0 <= i < |values[key]| ==> IsBytes(values[key][i])
  }

  // The values of one key, in order: what url.Values holds for it after parsing.
  function ValuesOf(pairs: seq<Pair>, key: string): seq<string> {
    if pairs == [] then []
    else (if pairs[0].0 == key then [pairs[0].1] else []) + ValuesOf(pairs[1..], key)
  }

  lemma {:induction false} ValuesAppend(a: seq<Pair>, b: seq<Pair>, key: string)
    ensures ValuesOf(a + b, key) == ValuesOf(a, key) + ValuesOf(b, key)
  {
    if a == [] {
      assert a + b == b;
    } else {
      assert (a + b)[0] == a[0] && (a + b)[1..] == a[1..] + b;
      ValuesAppend(a[1..], b, key);
    }
  }

  lemma {:induction false} ValuesOfKey(other: string, values: seq<string>, key: string)
    ensures ValuesOf(KeyPairs(other, values), key) == if other == key then values else []
  {
    if values != [] {
      assert KeyPairs(other, values)[1..] == KeyPairs(other, values[1..]);
      ValuesOfKey(other, values[1..], key);
    }
  }

  lemma {:induction false} ValuesOfPairs(keys: seq<string>, values: Values, key: string)
    requires Distinct(keys)
    ensures ValuesOf(PairsOf(keys, values), key) == if key in keys then Listing(values, key) else []
  {
    if keys != [] {
      ValuesOfPairs(keys[1..], values, key);
      ValuesOfKey(keys[0], Listing(values, keys[0]), key);
      ValuesAppend(KeyPairs(keys[0], Listing(values, keys[0])), PairsOf(keys[1..], values), key);
    }
  }

  lemma {:induction false} PairsAreBytes(keys: seq<string>, values: Values)
    requires ByteValues(values) && forall key :: key in keys ==> key in values
    ensures BytePairs(PairsOf(keys, values))
  {
    if keys != [] {
      PairsAreBytes(keys[1..], values);
      assert keys[0] in values;
    }
  }

  lemma FilteredIsBytes(values: Values)
    requires ByteValues(values)
    ensures ByteValues(Filtered(values))
  {
    forall key | key in Filtered(values)
      ensures IsBytes(key) && forall i :: 0 <= i < |Filtered(values)[key]| ==> IsBytes(Filtered(values)[key][i])
    {
      var sorted := SortStrings(values[key]);
      forall i | 0 <= i < |sorted| ensures IsBytes(sorted[i]) {
        assert sorted[i] in multiset(sorted);
        assert sorted[i] in values[key];
      }
    }
  }

  lemma CanonicalIsJoined(values: Values)
    ensures CanonicalQuery(values) == Join(PairsOf(Ascending(Filtered(values).Keys), Filtered(values)), "%20")
  {
    ReplaceJoined(PairsOf(Ascending(Filtered(values).Keys), Filtered(values)));
  }

  /** Reading the canonical query back gives, for every key but `token` and `s`, its values in byte
      order, and nothing for those two. */
  lemma CanonicalRoundTrip(values: Values, key: string)
    requires ByteValues(values)
    ensures ValuesOf(ParseQuery(CanonicalQuery(values)), key) ==
      if key == "token" || key == "s" then [] else SortStrings(Listing(values, key))
  {
    hide ParseQuery, PairsOf, Ascending, SortStrings, ReplacePlus;
    var filtered := Filtered(values);
    var keys := Ascending(filtered.Keys);
    CanonicalIsJoined(values);
    FilteredIsBytes(values);
    forall k ensures k in keys <==> k in filtered { AscendingMembers(filtered.Keys, k); }
    PairsAreBytes(keys, filtered);
    ParseJoined(PairsOf(keys, filtered), "%20");
    AscendingIsDistinct(filtered.Keys);
    ValuesOfPairs(keys, filtered, key);
    SortEmpty();
  }

  lemma SortEmpty()
    ensures SortStrings([]) == []
  {}

  // The pairs of a canonical query come in the order of their keys.
  lemma {:induction false} PairKeysAscend(keys: seq<string>, values: Values)
    requires Sorted(keys)
    ensures forall i, j :: 0 <= i < j < |PairsOf(keys, values)| ==>
      LessEq(PairsOf(keys, values)[i].0, PairsOf(keys, values)[j].0)
  {
    hide LessEq;
    if keys != [] {
      var first, rest := KeyPairs(keys[0], Listing(values, keys[0])), PairsOf(keys[1..], values);
      PairKeysAscend(keys[1..], values);
      LessEqReflexive(keys[0]);
      forall j | 0 <= j < |rest| ensures LessEq(keys[0], rest[j].0) {
        PairKeyIsListed(keys[1..], values, j);
        var k :| 0 <= k < |keys[1..]| && keys[1..][k] == rest[j].0;
        assert keys[k + 1] == rest[j].0;
      }
    }
  }

  lemma {:induction false} PairKeyIsListed(keys: seq<string>, values: Values, j: nat)
    requires j < |PairsOf(keys, values)|
    ensures PairsOf(keys, values)[j].0 in keys
  {
    var first := KeyPairs(keys[0], Listing(values, keys[0]));
    if j >= |first| {
      PairKeyIsListed(keys[1..], values, j - |first|);
    }
  }

  lemma LessEqReflexive(s: string)
    ensures LessEq(s, s)
  {}

  /** The text of a canonical query, in terms of what it parses to: the pairs in the byte order of their
      names, each name and value escaped, '%' only in front of two capital hexadecimal digits that stand
      for a byte which needs them. */
  lemma CanonicalText(values: Values)
    requires ByteValues(values)
    ensures var query := CanonicalQuery(values);
      var pairs := ParseQuery(query);
      && query == Join(pairs, "%20")
      && (forall i, j :: 0 <= i < j < |pairs| ==> LessEq(pairs[i].0, pairs[j].0))
      && IsQueryText(query)
  {
    hide ParseQuery, PairsOf, Ascending, SortStrings, ReplacePlus, IsQueryText, Join, LessEq;
    var filtered := Filtered(values);
    var keys := Ascending(filtered.Keys);
    CanonicalIsJoined(values);
    FilteredIsBytes(values);
    forall k ensures k in keys <==> k in filtered { AscendingMembers(filtered.Keys, k); }
    PairsAreBytes(keys, filtered);
    ParseJoined(PairsOf(keys, filtered), "%20");
    AscendingIsDistinct(filtered.Keys);
    PairKeysAscend(keys, filtered);
    JoinIsText(PairsOf(keys, filtered));
  }

  // ------------------------------------------------------------ what the canonical query depends on

  function NonEmpty(keys: seq<string>, values: Values): (r: seq<string>)
    ensures forall key :: key in r ==> key in keys && Listing(values, key) != []
  {
    if keys == [] then []
    else if Listing(values, keys[0]) == [] then NonEmpty(keys[1..], values)
    else [keys[0]] + NonEmpty(keys[1..], values)
  }

  // Keys without values print nothing.
  lemma {:induction false} PairsOfNonEmpty(keys: seq<string>, values: Values)
    ensures PairsOf(keys, values) == PairsOf(NonEmpty(keys, values), values)
  {
    if keys != [] {
      PairsOfNonEmpty(keys[1..], values);
      if Listing(values, keys[0]) == [] {
        assert KeyPairs(keys[0], Listing(values, keys[0])) == [];
      } else {
        assert NonEmpty(keys, values)[1..] == NonEmpty(keys[1..], values);
      }
    }
  }

  lemma {:induction false} NonEmptySorted(keys: seq<string>, values: Values)
    requires Sorted(keys)
    ensures Sorted(NonEmpty(keys, values))
  {
    if keys != [] {
      NonEmptySorted(keys[1..], values);
      var rest := NonEmpty(keys[1..], values);
      forall i | 0 <= i < |rest| ensures LessEq(keys[0], rest[i]) {
        assert rest[i] in keys[1..];
      }
    }
  }

  lemma {:induction false} NonEmptyCounts(keys: seq<string>, values: Values, key: string)
    requires Distinct(keys)
    ensures multiset(NonEmpty(keys, values))[key] == if key in keys && Listing(values, key) != [] then 1 else 0
  {
    if keys != [] {
      NonEmptyCounts(keys[1..], values, key);
    }
  }

  lemma {:induction false} PairsOfEqual(keys: seq<string>, a: Values, b: Values)
    requires forall key :: Listing(a, key) == Listing(b, key)
    ensures PairsOf(keys, a) == PairsOf(keys, b)
  {
    if keys != [] {
      PairsOfEqual(keys[1..], a, b);
    }
  }

  lemma EncodedPairsEqual(a: Values, b: Values)
    requires forall key :: Listing(a, key) == Listing(b, key)
    ensures PairsOf(Ascending(a.Keys), a) == PairsOf(Ascending(b.Keys), b)
  {
    hide PairsOf, Ascending;
    var ka, kb := Ascending(a.Keys), Ascending(b.Keys);
    AscendingIsDistinct(a.Keys);
    AscendingIsDistinct(b.Keys);
    NonEmptySorted(ka, a);
    NonEmptySorted(kb, b);
    forall key ensures multiset(NonEmpty(ka, a))[key] == multiset(NonEmpty(kb, b))[key] {
      AscendingMembers(a.Keys, key);
      AscendingMembers(b.Keys, key);
      NonEmptyCounts(ka, a, key);
      NonEmptyCounts(kb, b, key);
    }
    assert multiset(NonEmpty(ka, a)) == multiset(NonEmpty(kb, b));
    SortedUnique(NonEmpty(ka, a), NonEmpty(kb, b));
    PairsOfNonEmpty(ka, a);
    PairsOfNonEmpty(kb, b);
    PairsOfEqual(NonEmpty(ka, a), a, b);
  }

  // The same values, in whatever order, for every key that counts; a key without values is absent.
  ghost predicate SameQuery(a: Values, b: Values) {
    forall key :: key != "token" && key != "s" ==> multiset(Listing(a, key)) == multiset(Listing(b, key))
  }

  lemma FilteredListing(values: Values, key: string)
    ensures Listing(Filtered(values), key) == if Excluded(key) then [] else SortStrings(Listing(values, key))
  {}

  lemma SameQueryPrintsTheSame(a: Values, b: Values)
    requires SameQuery(a, b)
    ensures CanonicalQuery(a) == CanonicalQuery(b)
  {
    hide Ascending, PairsOf, ReplacePlus, SortStrings, Filtered;
    forall key ensures Listing(Filtered(a), key) == Listing(Filtered(b), key) {
      FilteredListing(a, key);
      FilteredListing(b, key);
      if !Excluded(key) {
        SortedUnique(SortStrings(Listing(a, key)), SortStrings(Listing(b, key)));
      }
    }
    EncodedPairsEqual(Filtered(a), Filtered(b));
  }

  /** Two queries have the same canonical form exactly when every key other than `token` and `s` has
      the same values in both, up to their order. */
  lemma CanonicalEqualIff(a: Values, b: Values)
    requires ByteValues(a) && ByteValues(b)
    ensures CanonicalQuery(a) == CanonicalQuery(b) <==> SameQuery(a, b)
  {
    hide CanonicalQuery, SortStrings, ParseQuery, ValuesOf;
    if CanonicalQuery(a) == CanonicalQuery(b) {
      forall key | !Excluded(key) ensures multiset(Listing(a, key)) == multiset(Listing(b, key)) {
        CanonicalRoundTrip(a, key);
        CanonicalRoundTrip(b, key);
      }
    } else if SameQuery(a, b) {
      SameQueryPrintsTheSame(a, b);
    }
  }

  // ------------------------------------------------------------ the key

  datatype Request = Request(verb: string, path: string, query: Values, agent: string, token: string)

  // "|" + path, with the canonical query behind "?" when it is included and not empty.
  function Place(path: string, query: string): string {
    if query == "" then path else path + "?" + query
  }

  ghost function QueryPart(r: Request, includeQuery: bool): string {
    if includeQuery then CanonicalQuery(r.query) else ""
  }

  ghost function Params(r: Request, includeQuery: bool): string {
    r.verb + "|" + Place(r.path, QueryPart(r, includeQuery)) + "|" + r.agent
  }

  // digest is the hexadecimal form of the MD5 sum: 32 characters, otherwise unknown.
  ghost function Key(digest: string -> string, r: Request, includeQuery: bool): string {
    digest(Params(r, includeQuery)) + "_" + r.token
  }

  const DIGEST_LENGTH := 32

  lemma KeyText(digest: string -> string, r: Request, includeQuery: bool)
    ensures var place :=
        if includeQuery && CanonicalQuery(r.query) != "" then r.path + "?" + CanonicalQuery(r.query) else r.path;
      Key(digest, r, includeQuery) == digest(r.verb + "|" + place + "|" + r.agent) + "_" + r.token
  {}

  lemma CanonicalHasNoSeparator(values: Values)
    ensures '?' !in CanonicalQuery(values) && '|' !in CanonicalQuery(values)
  {
    hide PairsOf, Join, ReplacePlus, Encode;
    CanonicalIsJoined(values);
    JoinIsClean(PairsOf(Ascending(Filtered(values).Keys), Filtered(values)));
  }

  lemma KeyParts(digest: string -> string, a: Request, b: Request, includeQuery: bool)
    requires |digest(Params(a, includeQuery))| == |digest(Params(b, includeQuery))| == DIGEST_LENGTH
    ensures Key(digest, a, includeQuery) == Key(digest, b, includeQuery) <==>
      a.token == b.token && digest(Params(a, includeQuery)) == digest(Params(b, includeQuery))
  {
    hide Params;
    var ka, kb := Key(digest, a, includeQuery), Key(digest, b, includeQuery);
    assert ka[..DIGEST_LENGTH] == digest(Params(a, includeQuery)) && ka[DIGEST_LENGTH + 1..] == a.token;
    assert kb[..DIGEST_LENGTH] == digest(Params(b, includeQuery)) && kb[DIGEST_LENGTH + 1..] == b.token;
  }

  lemma CutEqual(a: string, b: string, c: char, restA: string, restB: string)
    requires c !in a && c !in b
    ensures a + [c] + restA == b + [c] + restB <==> a == b && restA == restB
  {
    CutJoined(a, c, restA);
    CutJoined(b, c, restB);
  }

  lemma ParamsEqual(a: Request, b: Request, includeQuery: bool)
    requires '|' !in a.verb + a.path && '|' !in b.verb + b.path
    ensures Params(a, includeQuery) == Params(b, includeQuery) <==>
      a.verb == b.verb && a.agent == b.agent
      && Place(a.path, QueryPart(a, includeQuery)) == Place(b.path, QueryPart(b, includeQuery))
  {
    hide CanonicalQuery;
    var pa, pb := Place(a.path, QueryPart(a, includeQuery)), Place(b.path, QueryPart(b, includeQuery));
    CanonicalHasNoSeparator(a.query);
    CanonicalHasNoSeparator(b.query);
    CutEqual(pa, pb, '|', a.agent, b.agent);
    CutEqual(a.verb, b.verb, '|', pa + "|" + a.agent, pb + "|" + b.agent);
    assert Params(a, includeQuery) == a.verb + ['|'] + (pa + "|" + a.agent);
    assert Params(b, includeQuery) == b.verb + ['|'] + (pb + "|" + b.agent);
  }

  // A path that spells out another path and its query.
  predicate Spells(long: string, path: string, query: string) {
    query != "" && long == path + "?" + query
  }

  lemma PlaceEqual(pathA: string, queryA: string, pathB: string, queryB: string)
    requires '?' !in queryA && '?' !in queryB
    ensures Place(pathA, queryA) == Place(pathB, queryB) <==>
      || (pathA == pathB && queryA == queryB)
      || (queryB == "" && Spells(pathB, pathA, queryA))
      || (queryA == "" && Spells(pathA, pathB, queryB))
  {
    if queryA != "" && queryB != "" && Place(pathA, queryA) == Place(pathB, queryB) {
      LastMark(pathA, queryA, pathB, queryB);
      LastMark(pathB, queryB, pathA, queryA);
      var p := Place(pathA, queryA);
      assert pathA == p[..|pathA|] == pathB;
      assert queryA == p[|pathA| + 1..] == queryB;
    }
  }

  // The last '?' is the one that introduces the query.
  lemma LastMark(pathA: string, queryA: string, pathB: string, queryB: string)
    requires '?' !in queryA && pathA + "?" + queryA == pathB + "?" + queryB
    ensures |pathB| <= |pathA|
  {
    var p := pathA + "?" + queryA;
    assert p[|pathB|] == '?';
    assert forall i :: |pathA| < i < |p| ==> p[i] == queryA[i - |pathA| - 1];
  }

  /** For requests whose method and path hold no '|', two keys are equal exactly when the requests agree
      in method, user agent, token, path and (when it is included) query up to reordering, or when one
      path spells out the other path and its canonical query while having no query of its own. */
  lemma KeyEqualIff(digest: string -> string, a: Request, b: Request, includeQuery: bool)
    requires '|' !in a.verb + a.path && '|' !in b.verb + b.path
    requires ByteValues(a.query) && ByteValues(b.query)
    requires |digest(Params(a, includeQuery))| == |digest(Params(b, includeQuery))| == DIGEST_LENGTH
    requires digest(Params(a, includeQuery)) == digest(Params(b, includeQuery)) ==>
      Params(a, includeQuery) == Params(b, includeQuery)
    ensures Key(digest, a, includeQuery) == Key(digest, b, includeQuery) <==>
      a.verb == b.verb && a.agent == b.agent && a.token == b.token
      && var qa, qb := QueryPart(a, includeQuery), QueryPart(b, includeQuery);
        || (a.path == b.path && (includeQuery ==> SameQuery(a.query, b.query)))
        || (qb == "" && Spells(b.path, a.path, qa))
        || (qa == "" && Spells(a.path, b.path, qb))
  {
    hide Params, CanonicalQuery, SameQuery, Key;
    KeyParts(digest, a, b, includeQuery);
    ParamsEqual(a, b, includeQuery);
    CanonicalHasNoSeparator(a.query);
    CanonicalHasNoSeparator(b.query);
    PlaceEqual(a.path, QueryPart(a, includeQuery), b.path, QueryPart(b, includeQuery));
    CanonicalEqualIff(a.query, b.query);
  }

  /** So without '?' in the paths the key is injective up to query reordering. */
  lemma KeyIsInjective(digest: string -> string, a: Request, b: Request, includeQuery: bool)
    requires '|' !in a.verb + a.path && '|' !in b.verb + b.path
    requires includeQuery ==> '?' !in a.path && '?' !in b.path
    requires ByteValues(a.query) && ByteValues(b.query)
    requires |digest(Params(a, includeQuery))| == |digest(Params(b, includeQuery))| == DIGEST_LENGTH
    requires digest(Params(a, includeQuery)) == digest(Params(b, includeQuery)) ==>
      Params(a, includeQuery) == Params(b, includeQuery)
    ensures Key(digest, a, includeQuery) == Key(digest, b, includeQuery) <==>
      a.verb == b.verb && a.agent == b.agent && a.token == b.token
      && a.path == b.path && (includeQuery ==> SameQuery(a.query, b.query))
  {
    hide Params, CanonicalQuery, SameQuery, Key;
    KeyEqualIff(digest, a, b, includeQuery);
    SpellsNeedsMark(a.path, b.path, QueryPart(b, includeQuery));
    SpellsNeedsMark(b.path, a.path, QueryPart(a, includeQuery));
  }

  lemma SpellsNeedsMark(long: string, path: string, query: string)
    ensures Spells(long, path, query) ==> '?' in long
  {}

  // What stands behind the first '|' of a path, with the query, read as the beginning of the user agent.
  ghost function Shifted(r: Request, includeQuery: bool): Request {
    var place := Place(r.path, QueryPart(r, includeQuery));
    Request(r.verb, Before(place, '|'), map[], Beyond(place, '|') + "|" + r.agent, r.token)
  }

  /** Both provisos are needed. A path with a '|' always shares its key with another request, one whose
      path has none, whether or not the query is part of the key. */
  lemma PipeCollides(digest: string -> string, r: Request, includeQuery: bool)
    requires '|' in r.path
    ensures '|' !in Shifted(r, includeQuery).path && Shifted(r, includeQuery).path != r.path
    ensures Key(digest, Shifted(r, includeQuery), includeQuery) == Key(digest, r, includeQuery)
  {
    hide CanonicalQuery, Place;
    EmptyCanonical();
    EmptyPlace(Before(Place(r.path, QueryPart(r, includeQuery)), '|'));
    PipeInPlace(r.path, QueryPart(r, includeQuery));
    var place := Place(r.path, QueryPart(r, includeQuery));
    CutAtPipe(place);
    Regroup(r.verb, Before(place, '|'), Beyond(place, '|'), r.agent);
  }

  lemma EmptyPlace(path: string)
    ensures Place(path, "") == path
  {}

  lemma PipeInPlace(path: string, query: string)
    requires '|' in path
    ensures '|' in Place(path, query)
  {
    assert Place(path, query)[IndexOf(path, '|')] == '|';
  }

  lemma CutAtPipe(s: string)
    requires '|' in s
    ensures s == Before(s, '|') + "|" + Beyond(s, '|') && '|' !in Before(s, '|')
  {
    assert s[IndexOf(s, '|')] == '|';
  }

  lemma Regroup(a: string, b: string, c: string, d: string)
    ensures a + "|" + (b + "|" + c) + "|" + d == a + "|" + b + "|" + (c + "|" + d)
  {}

  // A request whose query has been moved into its path.
  ghost function Spelled(r: Request): Request {
    r.(path := r.path + "?" + CanonicalQuery(r.query), query := map[])
  }

  /** And a path may spell out a query: every request with a query that counts has a namesake. */
  lemma SpelledQueryCollides(digest: string -> string, r: Request)
    requires CanonicalQuery(r.query) != ""
    ensures Spelled(r).path != r.path && Key(digest, Spelled(r), true) == Key(digest, r, true)
  {
    hide CanonicalQuery;
    EmptyCanonical();
    assert |Spelled(r).path| > |r.path|;
  }

  lemma EmptyCanonical()
    ensures CanonicalQuery(map[]) == ""
  {}
}
