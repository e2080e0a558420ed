// Shared vocabulary: optional values, Go's string helpers, the byte order used by
// sort.Strings, and the decimal text produced and read by strconv.

module Wrappers {
  datatype Option<+T> = None | Some(value: T)
}

module Strings {
  predicate HasPrefix(s: string, prefix: string) {
    |prefix| <= |s| && s[..|prefix|] == prefix
  }

  predicate HasSuffix(s: string, suffix: string) {
    |suffix| <= |s| && s[|s| - |suffix|..] == suffix
  }

  function TrimPrefix(s: string, prefix: string): string {
    if HasPrefix(s, prefix) then s[|prefix|..] else s
  }

  lemma TrimJoined(prefix: string, rest: string)
    ensures HasPrefix(prefix + rest, prefix) && TrimPrefix(prefix + rest, prefix) == rest
  {}
}

/** The byte-wise order of sort.Strings and the facts that make a sorted slice canonical. */
module Sorting {
  predicate LessEq(a: string, b: string) {
    if a == [] then true
    else if b == [] then false
    else a[0] < b[0] || (a[0] == b[0] && LessEq(a[1..], b[1..]))
  }

  /** The order is the dictionary order of byte strings: a prefix comes first, and otherwise the first
      difference decides. */
  lemma {:induction false} LessEqIsLexicographic(a: string, b: string)
    ensures LessEq(a, b) <==>
      a <= b || exists i :: 0 <= i < |a| && i < |b| && a[..i] == b[..i] && a[i] < b[i]
  {
    if a == [] || b == [] {
    } else if a[0] != b[0] {
      assert a[..0] == b[..0];
      assert forall i :: 0 < i <= |a| ==> a[..i][0] == a[0];
      assert forall i :: 0 < i <= |b| ==> b[..i][0] == b[0];
    } else {
      LessEqIsLexicographic(a[1..], b[1..]);
      LaterDifference(a, b);
    }
  }

  lemma LaterDifference(a: string, b: string)
    requires a != [] && b != [] && a[0] == b[0]
    ensures a <= b <==> a[1..] <= b[1..]
    ensures (exists i :: 0 <= i < |a| && i < |b| && a[..i] == b[..i] && a[i] < b[i]) <==>
      exists i :: 0 <= i < |a[1..]| && i < |b[1..]| && a[1..][..i] == b[1..][..i] && a[1..][i] < b[1..][i]
  {
    if i :| 0 <= i < |a| && i < |b| && a[..i] == b[..i] && a[i] < b[i] {
      assert a[1..][..i - 1] == a[..i][1..] && b[1..][..i - 1] == b[..i][1..];
      assert a[1..][i - 1] < b[1..][i - 1];
    }
    if i :| 0 <= i < |a[1..]| && i < |b[1..]| && a[1..][..i] == b[1..][..i] && a[1..][i] < b[1..][i] {
      assert a[..i + 1] == [a[0]] + a[1..][..i] && b[..i + 1] == [b[0]] + b[1..][..i];
      assert a[i + 1] < b[i + 1];
    }
  }

  lemma {:induction false} LessEqTotal(a: string, b: string)
    ensures LessEq(a, b) || LessEq(b, a)
  {
    if a != [] && b != [] {
      LessEqTotal(a[1..], b[1..]);
    }
  }

  lemma {:induction false} LessEqAntisymmetric(a: string, b: string)
    requires LessEq(a, b) && LessEq(b, a)
    ensures a == b
  {
    if a != [] && b != [] {
      LessEqAntisymmetric(a[1..], b[1..]);
      assert a == [a[0]] + a[1..] && b == [b[0]] + b[1..];
    }
  }

  lemma {:induction false} LessEqTransitive(a: string, b: string, c: string)
    requires LessEq(a, b) && LessEq(b, c)
    ensures LessEq(a, c)
  {
    if a != [] && a[0] == b[0] == c[0] {
      LessEqTransitive(a[1..], b[1..], c[1..]);
    }
  }

  ghost predicate Sorted(s: seq<string>) {
    forall i, j :: 0 <= i < j < |s| ==> LessEq(s[i], s[j])
  }

  function Insert(x: string, s: seq<string>): (r: seq<string>)
    requires Sorted(s)
    ensures Sorted(r) && multiset(r) == multiset(s) + multiset{x}
  {
    if s == [] then [x]
    else if LessEq(x, s[0]) then
      assert Sorted([x] + s) by { BelowAll(x, s); }
      [x] + s
    else
      var r := Insert(x, s[1..]);
      assert s == [s[0]] + s[1..];
      assert Sorted([s[0]] + r) by { LessEqTotal(x, s[0]); AboveHead(s, x, r); }
      [s[0]] + r
  }

  lemma AboveHead(s: seq<string>, x: string, r: seq<string>)
    requires s != [] && Sorted(s) && LessEq(s[0], x) && multiset(r) == multiset(s[1..]) + multiset{x}
    ensures forall i :: 0 <= i < |r| ==> LessEq(s[0], r[i])
  {
    forall i | 0 <= i < |r| ensures LessEq(s[0], r[i]) {
      assert r[i] in multiset(r);
      assert r[i] == x || r[i] in multiset(s[1..]);
      if r[i] != x {
        var j :| 0 <= j < |s[1..]| && s[1..][j] == r[i];
        assert s[j + 1] == r[i];
      }
    }
  }

  lemma BelowAll(x: string, s: seq<string>)
    requires s != [] && Sorted(s) && LessEq(x, s[0])
    ensures forall i :: 0 <= i < |s| ==> LessEq(x, s[i])
  {
    forall i | 0 < i < |s| ensures LessEq(x, s[i]) {
      LessEqTransitive(x, s[0], s[i]);
    }
  }

  /** sort.Strings: the same strings, in byte order. */
  function SortStrings(s: seq<string>): (r: seq<string>)
    ensures Sorted(r) && multiset(r) == multiset(s)
  {
    if s == [] then []
    else
      assert s == [s[0]] + s[1..];
      Insert(s[0], SortStrings(s[1..]))
  }

  /** A sorted slice is determined by which strings it holds and how often. */
  lemma {:induction false} SortedUnique(a: seq<string>, b: seq<string>)
    requires Sorted(a) && Sorted(b) && multiset(a) == multiset(b)
    ensures a == b
  {
    assert |multiset(a)| == |a| && |multiset(b)| == |b|;
    if a != [] {
      assert a[0] in multiset(b) && b[0] in multiset(a);
      HeadIsLeast(a, b[0]);
      HeadIsLeast(b, a[0]);
      LessEqAntisymmetric(a[0], b[0]);
      TailMultiset(a);
      TailMultiset(b);
      SortedUnique(a[1..], b[1..]);
      assert a == [a[0]] + a[1..] && b == [b[0]] + b[1..];
    }
  }

  lemma TailMultiset(s: seq<string>)
    requires s != []
    ensures multiset(s[1..]) == multiset(s) - multiset{s[0]}
  {
    assert s == [s[0]] + s[1..];
  }

  lemma HeadIsLeast(s: seq<string>, x: string)
    requires Sorted(s) && x in s
    ensures LessEq(s[0], x)
  {
    LessEqTotal(x, x);
  }

  predicate Distinct(s: seq<string>) {
    forall i, j :: 0 <= i < j < |s| ==> s[i] != s[j]
  }

  /** The members of a set in byte order. */
  ghost function Ascending(s: set<string>): (r: seq<string>)
    ensures Sorted(r) && multiset(r) == multiset(s)
  {
    if s == {} then []
    else
      var x :| x in s;
      assert multiset(s) == multiset(s - {x}) + multiset{x};
      Insert(x, Ascending(s - {x}))
  }

  lemma AscendingMembers(s: set<string>, x: string)
    ensures x in Ascending(s) <==> x in s
  {
    assert x in multiset(Ascending(s)) <==> x in multiset(s);
  }

  lemma RepeatedTwice(s: seq<string>, i: nat, j: nat)
    requires i < j < |s| && s[i] == s[j]
    ensures multiset(s)[s[i]] >= 2
  {
    assert s == s[..j] + s[j..];
    assert s[..j][i] in multiset(s[..j]) && s[j..][0] in multiset(s[j..]);
    assert multiset(s) == multiset(s[..j]) + multiset(s[j..]);
  }

  lemma AscendingIsDistinct(s: set<string>)
    ensures Distinct(Ascending(s))
  {
    hide Ascending;
    var r := Ascending(s);
    forall i, j | 0 <= i < j < |r| ensures r[i] != r[j] {
      assert multiset(s)[r[i]] <= 1;
      if r[i] == r[j] {
        RepeatedTwice(r, i, j);
      }
    }
  }

  /** Sorting any enumeration of a set gives the same slice. */
  lemma SortEnumeration(s: set<string>, listing: seq<string>)
    requires multiset(listing) == multiset(s)
    ensures SortStrings(listing) == Ascending(s)
  {
    SortedUnique(SortStrings(listing), Ascending(s));
  }
}

/** strconv.FormatInt and strconv.ParseInt in base 10, on unbounded integers. */
module Decimal {
  import opened Wrappers

  function DigitChar(d: nat): char
    requires d < 10
  {
    '0' + d as char
  }

  predicate IsDigit(c: char) {
    '0' <= c <= '9'
  }

  function Digits(n: nat): (r: string)
    ensures r != "" && IsDigit(r[0])
  {
    if n < 10 then [DigitChar(n)] else Digits(n / 10) + [DigitChar(n % 10)]
  }

  function FormatInt(n: int): string {
    if n < 0 then "-" + Digits(-n) else Digits(n)
  }

  function ParseDigits(s: string): Option<nat> {
    if s == "" || !IsDigit(s[|s| - 1]) then None
    else
      var last := s[|s| - 1] as nat - '0' as nat;
      if |s| == 1 then Some(last)
      else match ParseDigits(s[..|s| - 1])
        case None => None
        case Some(high) => Some(10 * high + last)
  }

  function ParseInt(s: string): Option<int> {
    if s == "" then None
    else if s[0] == '-' then
      var n := ParseDigits(s[1..]);
      if n.None? then None else Some(0 - n.value)
    else if s[0] == '+' then ParseDigits(s[1..])
    else ParseDigits(s)
  }

  lemma {:induction false} ParseDigitsInverse(n: nat)
    ensures ParseDigits(Digits(n)) == Some(n)
  {
    if n >= 10 {
      ParseDigitsInverse(n / 10);
      assert Digits(n)[..|Digits(n)| - 1] == Digits(n / 10);
    }
  }

  lemma ParseInverse(n: int)
    ensures ParseInt(FormatInt(n)) == Some(n)
  {
    hide ParseDigits, Digits;
    if n < 0 {
      ParseDigitsInverse(-n);
      assert FormatInt(n)[1..] == Digits(-n);
    } else {
      ParseDigitsInverse(n);
    }
  }

  /** The text is decimal: one character for a digit, the last digit behind the rest, a minus in front. */
  lemma FormatIsDecimal(n: nat, d: nat)
    requires d < 10
    ensures FormatInt(d) == ["0123456789"[d]]
    ensures n > 0 ==> FormatInt(10 * n + d) == FormatInt(n) + ["0123456789"[d]]
    ensures n > 0 ==> FormatInt(0 - n) == "-" + FormatInt(n)
  {
    DigitIsListed(d);
    if n > 0 {
      assert (10 * n + d) / 10 == n && (10 * n + d) % 10 == d;
    }
  }

  lemma DigitIsListed(d: nat)
    requires d < 10
    ensures DigitChar(d) == "0123456789"[d]
  {}

  /** ParseInt accepts exactly the non-empty digit strings with at most one sign in front; a plus and
      leading zeros change nothing. */
  lemma ParseAccepts(s: string)
    ensures ParseInt(s).Some? <==> AllDigits(s) || (s != "" && (s[0] == '-' || s[0] == '+') && AllDigits(s[1..]))
    ensures AllDigits(s) ==> ParseInt("+" + s) == ParseInt(s) && ParseInt("0" + s) == ParseInt(s)
  {
    ParseDigitsAccepts(s);
    if s != "" {
      ParseDigitsAccepts(s[1..]);
    }
    if AllDigits(s) {
      assert ("+" + s)[1..] == s;
      LeadingZero(s);
    }
  }

  predicate AllDigits(s: string) {
    s != "" && forall i :: 0 <= i < |s| ==> '0' <= s[i] <= '9'
  }

  lemma {:induction false} ParseDigitsAccepts(s: string)
    ensures ParseDigits(s).Some? <==> AllDigits(s)
  {
    if |s| > 1 {
      ParseDigitsAccepts(s[..|s| - 1]);
    }
  }

  lemma {:induction false} LeadingZero(s: string)
    requires AllDigits(s)
    ensures ParseDigits("0" + s) == ParseDigits(s)
  {
    if |s| > 1 {
      assert ("0" + s)[..|s|] == "0" + s[..|s| - 1];
      LeadingZero(s[..|s| - 1]);
    } else {
      assert ("0" + s)[..1] == "0";
      assert ParseDigits("0") == Some(0);
    }
  }

  lemma FormatInjective(a: int, b: int)
    requires FormatInt(a) == FormatInt(b)
    ensures a == b
  {
    ParseInverse(a);
    ParseInverse(b);
  }
}

/** Sums over finite sets, independent of the order in which the members are visited. */
module Sums {
  ghost function SumSet<T(!new)>(members: set<T>, f: T -> int): int {
    if members == {} then 0
    else
      var x :| x in members;
      f(x) + SumSet(members - {x}, f)
  }

  lemma {:induction false} SumRemove<T(!new)>(members: set<T>, x: T, f: T -> int)
    requires x in members
    ensures SumSet(members, f) == f(x) + SumSet(members - {x}, f)
    decreases |members|
  {
    var y :| y in members && SumSet(members, f) == f(y) + SumSet(members - {y}, f);
    if x != y {
      SumRemove(members - {y}, x, f);
      SumRemove(members - {x}, y, f);
      assert members - {y} - {x} == members - {x} - {y};
    }
  }

  lemma SumAdd<T(!new)>(members: set<T>, x: T, f: T -> int)
    requires x !in members
    ensures SumSet(members + {x}, f) == SumSet(members, f) + f(x)
  {
    SumRemove(members + {x}, x, f);
    assert members + {x} - {x} == members;
  }

  lemma {:induction false} SumEqual<T(!new)>(members: set<T>, f: T -> int, g: T -> int)
    requires forall x :: x in members ==> f(x) == g(x)
    ensures SumSet(members, f) == SumSet(members, g)
    decreases |members|
  {
    if members != {} {
      var x :| x in members;
      SumRemove(members, x, f);
      SumRemove(members, x, g);
      SumEqual(members - {x}, f, g);
    }
  }

  lemma {:induction false} SumZero<T(!new)>(members: set<T>, f: T -> int)
    requires forall x :: x in members ==> f(x) == 0
    ensures SumSet(members, f) == 0
    decreases |members|
  {
    if members != {} {
      var x :| x in members;
      SumRemove(members, x, f);
      SumZero(members - {x}, f);
    }
  }

  lemma {:induction false} SumAtMost<T(!new)>(members: set<T>, f: T -> int, g: T -> int)
    requires forall x :: x in members ==> f(x) <= g(x)
    ensures SumSet(members, f) <= SumSet(members, g)
    decreases |members|
  {
    if members != {} {
      var x :| x in members;
      SumRemove(members, x, f);
      SumRemove(members, x, g);
      SumAtMost(members - {x}, f, g);
    }
  }

  lemma {:induction false} SumPlus<T(!new)>(members: set<T>, f: T -> int, g: T -> int, sum: T -> int)
    requires forall x :: x in members ==> f(x) + g(x) == sum(x)
    ensures SumSet(members, f) + SumSet(members, g) == SumSet(members, sum)
    decreases |members|
  {
    if members != {} {
      var x :| x in members;
      SumRemove(members, x, f);
      SumRemove(members, x, g);
      SumRemove(members, x, sum);
      SumPlus(members - {x}, f, g, sum);
    }
  }

  // No member of a sum of naturals exceeds it.
  lemma {:induction false} SumBounds<T(!new)>(members: set<T>, f: T -> int, x: T)
    requires x in members && forall y :: y in members ==> f(y) >= 0
    ensures f(x) <= SumSet(members, f)
    decreases |members|
  {
    SumRemove(members, x, f);
    if y :| y in members && y != x {
      SumBounds(members - {x}, f, y);
    } else {
      assert members - {x} == {};
    }
  }

  // Adding one at a single member adds one to the sum.
  lemma SumBump<T(!new)>(members: set<T>, f: T -> int, g: T -> int, x: T)
    requires x in members && g(x) == f(x) + 1
    requires forall y :: y in members && y != x ==> g(y) == f(y)
    ensures SumSet(members, g) == SumSet(members, f) + 1
  {
    SumRemove(members, x, f);
    SumRemove(members, x, g);
    SumEqual(members - {x}, f, g);
  }

  function SumSeq(s: seq<int>): int {
    if s == [] then 0 else SumSeq(s[..|s| - 1]) + s[|s| - 1]
  }
}
