/** The Redis keys of the statistics: nine builders over paths and tokens, and the string tests
    the cleaner and the readers use to tell the families apart. */
module StatKeys {
  import opened Strings

  // What a group of counters is about: a normalized path or a proxy token.
  datatype Subject = Path(name: string) | Token(name: string)

  datatype StatKey =
    | Main(sub: Subject)
    | Ips(sub: Subject)
    | Uas(sub: Subject)
    | Hours(sub: Subject)
    | TokenPaths(token: string)
    | TokenIndex

  function Stem(sub: Subject): string {
    match sub
    case Path(p) => "stats::" + p
    case Token(t) => "stats::token::" + t
  }

  function Name(k: StatKey): string {
    match k
    case Main(sub) => Stem(sub)
    case Ips(sub) => Stem(sub) + "::ips"
    case Uas(sub) => Stem(sub) + "::uas"
    case Hours(sub) => Stem(sub) + "::hours"
    case TokenPaths(t) => Stem(Token(t)) + "::paths"
    case TokenIndex => "stats::tokens"
  }

  // The regular expression ^[a-zA-Z0-9]{16,34}$.
  predicate ValidProxyToken(token: string) {
    16 <= |token| <= 34 && forall i :: 0 <= i < |token| ==> IsAlnum(token[i])
  }

  predicate IsAlnum(c: char) {
    'a' <= c <= 'z' || 'A' <= c <= 'Z' || '0' <= c <= '9'
  }

  predicate HasDoubleColon(s: string) {
    exists i :: 0 <= i < |s| - 1 && s[i] == ':' == s[i + 1]
  }

  // Paths whose own key "stats::<path>" reads as a key of another family to the suffix tests.
  predicate Shadowed(path: string) {
    || path == "tokens"
    || path == "ips" || path == ":ips"
    || path == "uas" || path == ":uas"
    || path == "hours" || path == ":hours"
    || path == "paths" || path == ":paths"
  }

  // Paths and tokens whose keys are always told apart, by NameInjective below.
  predicate PlainPath(path: string) {
    !HasDoubleColon(path) && path != "tokens"
  }

  predicate PlainSubject(sub: Subject) {
    match sub
    case Path(p) => PlainPath(p)
    case Token(t) => ValidProxyToken(t)
  }

  predicate PlainKey(k: StatKey) {
    match k
    case TokenPaths(t) => ValidProxyToken(t)
    case TokenIndex => true
    case _ => PlainSubject(k.sub)
  }

  // The keys of a set of subjects, with the token index.
  predicate KeyIn(w: set<Subject>, k: StatKey) {
    match k
    case TokenPaths(t) => Token(t) in w
    case TokenIndex => true
    case _ => k.sub in w
  }

  predicate Apart(a: StatKey, b: StatKey) {
    Name(a) == Name(b) ==> a == b
  }

  ghost predicate Separated(w: set<Subject>) {
    forall a, b {:trigger Apart(a, b)} :: KeyIn(w, a) && KeyIn(w, b) ==> Apart(a, b)
  }

  // Paths and tokens of which no two keys are spelled alike; any of them, not only plain ones.
  type World = w: set<Subject> | Separated(w) witness {}

  lemma NamesApart(w: World, a: StatKey, b: StatKey)
    requires KeyIn(w, a) && KeyIn(w, b)
    ensures Name(a) == Name(b) <==> a == b
  {
    assert Apart(a, b);
  }

  predicate Spells(w: set<Subject>, k: StatKey, key: string) {
    KeyIn(w, k) && Name(k) == key
  }

  ghost predicate IsKey(w: set<Subject>, key: string) {
    exists k :: Spells(w, k, key)
  }

  // filterMainKeys, and the same test inside pathStats.
  predicate IsMainKey(key: string) {
    && !HasSuffix(key, "::ips")
    && !HasSuffix(key, "::uas")
    && !HasSuffix(key, "::hours")
    && !HasSuffix(key, "::paths")
    && !HasPrefix(key, "stats::token::")
    && key != "stats::tokens"
  }

  datatype WindowAction = TrimWindow | PruneHours | Skip

  // windowCleanupAction, for the two Redis types the statistics use.
  function ActionFor(isZSet: bool, key: string): WindowAction {
    if isZSet then TrimWindow
    else if HasSuffix(key, "::hours") then PruneHours
    else Skip
  }

  // ------------------------------------------------------------ separation of the families

  // What a suffix or prefix test says about single characters.
  lemma SuffixChars(n: string, suffix: string)
    ensures HasSuffix(n, suffix) ==>
      forall j :: 0 <= j < |suffix| ==> n[|n| - |suffix| + j] == suffix[j]
  {}

  lemma PrefixChars(n: string, prefix: string)
    ensures HasPrefix(n, prefix) ==> forall j :: 0 <= j < |prefix| ==> n[j] == prefix[j]
  {}

  lemma JoinedSuffix(stem: string, suffix: string)
    ensures HasSuffix(stem + suffix, suffix)
    ensures (stem + suffix)[..|stem + suffix| - |suffix|] == stem
  {}

  // The key a string spells: a left inverse of Name on plain keys.
  function Decode(n: string): StatKey {
    if HasPrefix(n, "stats::") && !HasDoubleColon(n[7..]) then
      if n == "stats::tokens" then TokenIndex else Main(Path(n[7..]))
    else if HasSuffix(n, "::ips") then Ips(DecodeStem(n[..|n| - 5]))
    else if HasSuffix(n, "::uas") then Uas(DecodeStem(n[..|n| - 5]))
    else if HasSuffix(n, "::hours") then Hours(DecodeStem(n[..|n| - 7]))
    else if HasSuffix(n, "::paths") then TokenPaths(DecodeStem(n[..|n| - 7]).name)
    else Main(DecodeStem(n))
  }

  function DecodeStem(stem: string): Subject {
    if HasPrefix(stem, "stats::token::") then Token(stem[14..])
    else if HasPrefix(stem, "stats::") then Path(stem[7..])
    else Path(stem)
  }

  lemma DecodeStemInverse(sub: Subject)
    requires PlainSubject(sub)
    ensures DecodeStem(Stem(sub)) == sub
    ensures HasPrefix(Stem(sub), "stats::token::") <==> sub.Token?
  {
    var n := Stem(sub);
    PrefixChars(n, "stats::token::");
    match sub {
      case Path(p) =>
        TrimJoined("stats::", p);
        assert |p| >= 7 ==> n[12] == p[5] && n[13] == p[6];
      case Token(t) =>
        TrimJoined("stats::token::", t);
    }
  }

  // The four suffixes, by the characters that matter: a double colon in front, nothing but
  // letters behind it, and a last-but-one letter of their own.
  predicate SuffixShape(suffix: string) {
    && 5 <= |suffix| <= 7
    && suffix[0] == ':' == suffix[1]
    && forall j :: 2 <= j < |suffix| ==> suffix[j] != ':'
  }

  lemma SuffixShapes()
    ensures SuffixShape("::ips") && SuffixShape("::uas") && SuffixShape("::hours") && SuffixShape("::paths")
    ensures "::ips"[3] == 'p' && "::uas"[3] == 'a' && "::hours"[5] == 'r' && "::paths"[5] == 'h'
  {}

  // For a path without "::", only two spellings make "stats::<path>" end in a given suffix.
  lemma SuffixOfMain(p: string, suffix: string)
    requires !HasDoubleColon(p) && SuffixShape(suffix)
    ensures HasSuffix("stats::" + p, suffix) <==> p == suffix[1..] || p == suffix[2..]
  {}

  lemma SuffixOfToken(t: string, suffix: string)
    requires ValidProxyToken(t) && SuffixShape(suffix)
    ensures !HasSuffix("stats::token::" + t, suffix)
  {}

  // Two different suffixes never end the same key.
  lemma SuffixesDisagree(stem: string, suffix: string, other: string)
    requires SuffixShape(suffix) && SuffixShape(other)
    requires suffix == other || suffix[|suffix| - 2] != other[|other| - 2]
    ensures HasSuffix(stem + suffix, other) <==> suffix == other
  {}

  predicate IsPathMain(k: StatKey) {
    k.Main? && k.sub.Path?
  }

  lemma SuffixTest(k: StatKey, suffix: string)
    requires PlainKey(k) && !IsPathMain(k)
    requires suffix in {"::ips", "::uas", "::hours", "::paths"}
    ensures HasSuffix(Name(k), suffix) <==> suffix == KeySuffix(k)
  {
    SuffixShapes();
    match k {
      case Main(sub) => SuffixOfToken(sub.name, suffix);
      case Ips(sub) => SuffixesDisagree(Stem(sub), "::ips", suffix);
      case Uas(sub) => SuffixesDisagree(Stem(sub), "::uas", suffix);
      case Hours(sub) => SuffixesDisagree(Stem(sub), "::hours", suffix);
      case TokenPaths(t) => SuffixesDisagree(Stem(Token(t)), "::paths", suffix);
      case TokenIndex => SuffixChars("stats::tokens", suffix);
    }
  }

  function KeySuffix(k: StatKey): string {
    match k
    case Ips(_) => "::ips"
    case Uas(_) => "::uas"
    case Hours(_) => "::hours"
    case TokenPaths(_) => "::paths"
    case _ => ""
  }

  lemma SuffixTests(k: StatKey)
    requires PlainKey(k) && !IsPathMain(k)
    ensures HasSuffix(Name(k), "::ips") <==> k.Ips?
    ensures HasSuffix(Name(k), "::uas") <==> k.Uas?
    ensures HasSuffix(Name(k), "::hours") <==> k.Hours?
    ensures HasSuffix(Name(k), "::paths") <==> k.TokenPaths?
    ensures Name(k) == "stats::tokens" <==> k.TokenIndex?
  {
    SuffixShapes();
    SuffixTest(k, "::ips");
    SuffixTest(k, "::uas");
    SuffixTest(k, "::hours");
    SuffixTest(k, "::paths");
    NotTheIndex(k);
  }

  lemma NotTheIndex(k: StatKey)
    requires PlainKey(k)
    ensures Name(k) == "stats::tokens" <==> k.TokenIndex?
  {
    var n, index := Name(k), "stats::tokens";
    assert index[12] == 's' && index[9] == 'k' && index[7] == 't';
    match k {
      case Main(Path(p)) => assert n[7..] == p; assert index[7..] == "tokens";
      case Main(Token(t)) => assert n[12] == ':';
      case Ips(sub) => assert n[|n| - 4] == ':';
      case Uas(sub) => assert n[|n| - 4] == ':';
      case Hours(sub) => assert n[|n| - 6] == ':';
      case TokenPaths(t) => assert n[|n| - 6] == ':';
      case TokenIndex =>
    }
  }

  // Behind "stats::" only the index and a path's own key have no double colon.
  lemma DoubleColonOf(k: StatKey)
    requires PlainKey(k)
    ensures HasPrefix(Name(k), "stats::") && (HasDoubleColon(Name(k)[7..]) <==> !IsPathMain(k) && !k.TokenIndex?)
  {
    var n := Name(k);
    var rest := n[7..];
    match k {
      case Main(Path(p)) => assert rest == p;
      case Main(Token(t)) => assert rest[5] == ':' && rest[6] == ':';
      case Ips(_) => assert rest[|rest| - 5] == ':' && rest[|rest| - 4] == ':';
      case Uas(_) => assert rest[|rest| - 5] == ':' && rest[|rest| - 4] == ':';
      case Hours(_) => assert rest[|rest| - 7] == ':' && rest[|rest| - 6] == ':';
      case TokenPaths(_) => assert rest[|rest| - 7] == ':' && rest[|rest| - 6] == ':';
      case TokenIndex =>
    }
  }

  /** Every key record builds can be read back from its text. */
  lemma DecodeInverse(k: StatKey)
    requires PlainKey(k)
    ensures Decode(Name(k)) == k
  {
    hide HasDoubleColon, PlainPath;
    DoubleColonOf(k);
    NotTheIndex(k);
    if IsPathMain(k) {
      TrimJoined("stats::", k.sub.name);
    } else if !k.TokenIndex? {
      DecodeSuffixed(k);
    }
  }

  lemma DecodeSuffixed(k: StatKey)
    requires PlainKey(k) && !IsPathMain(k) && !k.TokenIndex? && HasDoubleColon(Name(k)[7..])
    ensures Decode(Name(k)) == k
  {
    hide HasDoubleColon, PlainPath;
    SuffixTests(k);
    match k {
      case Main(sub) => DecodeStemInverse(sub);
      case Ips(sub) => DecodeStemInverse(sub); JoinedSuffix(Stem(sub), "::ips");
      case Uas(sub) => DecodeStemInverse(sub); JoinedSuffix(Stem(sub), "::uas");
      case Hours(sub) => DecodeStemInverse(sub); JoinedSuffix(Stem(sub), "::hours");
      case TokenPaths(t) => DecodeStemInverse(Token(t)); JoinedSuffix(Stem(Token(t)), "::paths");
    }
  }

  /** The nine builders and stats::tokens are injective and pairwise disjoint, for every path without
      "::" other than "tokens" and every valid token. */
  lemma NameInjective(a: StatKey, b: StatKey)
    requires PlainKey(a) && PlainKey(b)
    ensures Name(a) == Name(b) <==> a == b
  {
    DecodeInverse(a);
    DecodeInverse(b);
  }

  /** So any plain paths and valid tokens make a world. */
  lemma PlainIsSeparated(w: set<Subject>)
    requires forall sub :: sub in w ==> PlainSubject(sub)
    ensures Separated(w)
  {
    forall a, b | KeyIn(w, a) && KeyIn(w, b) ensures Apart(a, b) {
      NameInjective(a, b);
    }
  }

  /** Of the keys record writes, the filter keeps exactly the main keys of the paths that are not
      shadowed, and trimming the prefix gives the path back. */
  lemma MainKeyFilter(k: StatKey)
    requires PlainKey(k)
    ensures IsMainKey(Name(k)) <==> IsPathMain(k) && !Shadowed(k.sub.name)
    ensures IsPathMain(k) ==> TrimPrefix(Name(k), "stats::") == k.sub.name
  {
    if IsPathMain(k) {
      ListedPath(k.sub.name);
      TrimJoined("stats::", k.sub.name);
    } else {
      SuffixTests(k);
      if k.Main? {
        DecodeStemInverse(k.sub);
      }
    }
  }

  /** For every path without "::", its own key passes the filter exactly when it is not shadowed. */
  lemma ListedPath(p: string)
    requires !HasDoubleColon(p)
    ensures IsMainKey(Name(Main(Path(p)))) <==> !Shadowed(p)
  {
    MainSuffixTests(p);
    MainPrefixTests(p);
  }

  lemma MainPrefixTests(p: string)
    requires !HasDoubleColon(p)
    ensures !HasPrefix("stats::" + p, "stats::token::")
    ensures "stats::" + p == "stats::tokens" <==> p == "tokens"
  {
    var n := "stats::" + p;
    PrefixChars(n, "stats::token::");
    assert |p| >= 7 ==> n[12] == p[5] && n[13] == p[6];
    assert n[7..] == p && "stats::tokens"[7..] == "tokens";
  }

  lemma MainSuffixTests(p: string)
    requires !HasDoubleColon(p)
    ensures HasSuffix("stats::" + p, "::ips") <==> p == ":ips" || p == "ips"
    ensures HasSuffix("stats::" + p, "::uas") <==> p == ":uas" || p == "uas"
    ensures HasSuffix("stats::" + p, "::hours") <==> p == ":hours" || p == "hours"
    ensures HasSuffix("stats::" + p, "::paths") <==> p == ":paths" || p == "paths"
  {
    SuffixShapes();
    SuffixTails();
    SuffixOfMain(p, "::ips");
    SuffixOfMain(p, "::uas");
    SuffixOfMain(p, "::hours");
    SuffixOfMain(p, "::paths");
  }

  lemma SuffixTails()
    ensures "::ips"[1..] == ":ips" && "::ips"[2..] == "ips"
    ensures "::uas"[1..] == ":uas" && "::uas"[2..] == "uas"
    ensures "::hours"[1..] == ":hours" && "::hours"[2..] == "hours"
    ensures "::paths"[1..] == ":paths" && "::paths"[2..] == "paths"
  {}

  // Whatever the paths and tokens, only a path's own key passes the filter.
  lemma MainKeyIsPath(k: StatKey)
    requires IsMainKey(Name(k))
    ensures IsPathMain(k) && TrimPrefix(Name(k), "stats::") == k.sub.name && Steady(k.sub)
  {
    match k {
      case Main(Path(p)) => TrimJoined("stats::", p);
      case Main(Token(t)) => TrimJoined("stats::token::", t);
      case Ips(sub) => JoinedSuffix(Stem(sub), "::ips");
      case Uas(sub) => JoinedSuffix(Stem(sub), "::uas");
      case Hours(sub) => JoinedSuffix(Stem(sub), "::hours");
      case TokenPaths(t) => JoinedSuffix(Stem(Token(t)), "::paths");
      case TokenIndex =>
    }
  }

  // The counter hash of a subject is not taken for an hour hash by the window cleaner.
  predicate Steady(sub: Subject) {
    !HasSuffix(Name(Main(sub)), "::hours")
  }

  /** Among plain subjects only the paths "hours" and ":hours" are not steady. */
  lemma PlainIsSteady(sub: Subject)
    requires PlainSubject(sub)
    ensures Steady(sub) <==> sub != Path("hours") && sub != Path(":hours")
  {
    ActionOnKey(Main(sub));
  }

  lemma HoursIsPruned(sub: Subject)
    ensures HasSuffix(Name(Hours(sub)), "::hours")
  {
    JoinedSuffix(Stem(sub), "::hours");
  }

  /** The window cleaner prunes exactly the hour hashes, and the counter hashes of two paths. */
  lemma ActionOnKey(k: StatKey)
    requires PlainKey(k)
    ensures ActionFor(false, Name(k)) == PruneHours <==>
      k.Hours? || (IsPathMain(k) && (k.sub.name == "hours" || k.sub.name == ":hours"))
  {
    if IsPathMain(k) {
      MainSuffixTests(k.sub.name);
    } else {
      SuffixTests(k);
    }
  }

  /** Without the restrictions the families do collide: a path may be spelled so that its counter
      hash is the address set of another path, or the hash of a token. */
  lemma KeysCollide(p: string, t: string)
    ensures Name(Main(Path(p + "::ips"))) == Name(Ips(Path(p)))
    ensures Name(Main(Path("token::" + t))) == Name(Main(Token(t)))
    ensures Name(Hours(Path("token::" + t))) == Name(Hours(Token(t)))
    ensures Name(Main(Path("tokens"))) == Name(TokenIndex)
  {}
}
