/**
 * `AgentRouter.extract_feature_path`: which feature directory a request is
 * about. An explicit `current_path` in the request context wins; otherwise
 * four regular expressions are tried in order with `re.search` semantics
 * (leftmost match, alternatives tried left to right, greedy repetition), and
 * the captured feature name is mapped through a fixed table.
 *
 *   1. app/([a-z-]+)
 *   2. (시간\s*거래)
 *   3. (로그인|회원가입|인증)
 *   4. (프로필|설정)
 */
module FeaturePath {
  import opened Wrappers
  import opened Text
  import opened Workspace

  /** The regular expressions of `feature_patterns`, as data. */
  datatype Pattern =
    | AppSlug                       // app/([a-z-]+)
    | TimeTrade                     // (시간\s*거래)
    | AnyOf(words: seq<string>)     // (w1|w2|...)

  const AUTH_WORDS: seq<string> := ["로그인", "회원가입", "인증"]
  const PROFILE_WORDS: seq<string> := ["프로필", "설정"]
  const FEATURE_PATTERNS: seq<Pattern> := [AppSlug, TimeTrade, AnyOf(AUTH_WORDS), AnyOf(PROFILE_WORDS)]

  /** The class `[a-z-]`. */
  predicate IsSlugChar(c: char) {
    'a' <= c <= 'z' || c == '-'
  }

  /** Python's `\s` on `str` patterns: the characters for which `str.isspace()` holds. */
  predicate IsSpace(c: char) {
    var n := c as int;
    (0x09 <= n <= 0x0D) || (0x1C <= n <= 0x20) || n == 0x85 || n == 0xA0 || n == 0x1680
    || (0x2000 <= n <= 0x200A) || n == 0x2028 || n == 0x2029 || n == 0x202F || n == 0x205F || n == 0x3000
  }

  /** Length of the maximal run of characters satisfying `p` from index `i`: a greedy `[...]+` or `\s*`. */
  function RunLength(s: string, i: nat, p: char -> bool): (n: nat)
    requires i <= |s|
    ensures i + n <= |s|
    ensures forall k :: i <= k < i + n ==> p(s[k])
    ensures i + n == |s| || !p(s[i + n])
    decreases |s| - i
  {
    if i < |s| && p(s[i]) then 1 + RunLength(s, i + 1, p) else 0
  }

  /** The first alternative, in pattern order, that matches at index `i`. */
  function FirstWordAt(s: string, i: nat, words: seq<string>): (r: Option<string>)
    ensures r.Some? ==> r.value in words && OccursAt(s, r.value, i)
    ensures r.Some? ==> exists k | 0 <= k < |words| :: words[k] == r.value && forall j | 0 <= j < k :: !OccursAt(s, words[j], i)
    ensures r.None? ==> forall w :: w in words ==> !OccursAt(s, w, i)
  {
    if words == [] then None
    else if OccursAt(s, words[0], i) then Some(words[0])
    else
      var r := FirstWordAt(s, i, words[1..]);
      assert r.Some? ==> exists k | 0 <= k < |words| :: words[k] == r.value && forall j | 0 <= j < k :: !OccursAt(s, words[j], i) by {
        if r.Some? {
          var k :| 0 <= k < |words[1..]| && words[1..][k] == r.value && forall j | 0 <= j < k :: !OccursAt(s, words[1..][j], i);
          assert words[k + 1] == r.value;
          assert forall j | 0 <= j < k + 1 :: !OccursAt(s, words[j], i) by {
            forall j | 0 <= j < k + 1 ensures !OccursAt(s, words[j], i) {
              if j > 0 { assert words[j] == words[1..][j - 1]; }
            }
          }
        }
      }
      r
  }

  /** The pattern matches at index `i` of `s`. */
  predicate MatchesAt(p: Pattern, s: string, i: nat)
    ensures p.AnyOf? ==> (MatchesAt(p, s, i) <==> exists k | 0 <= k < |p.words| :: OccursAt(s, p.words[k], i))
    ensures p.AppSlug? ==> (MatchesAt(p, s, i) <==> OccursAt(s, "app/", i) && i + 4 < |s| && IsSlugChar(s[i + 4]))
    ensures p.TimeTrade? ==> (MatchesAt(p, s, i) <==> OccursAt(s, "시간", i) && SpacesThenAt(s, i + 2, "거래"))
  {
    match p
    case AppSlug => OccursAt(s, "app/", i) && i + 4 < |s| && IsSlugChar(s[i + 4])
    case TimeTrade =>
      OccursAt(s, "시간", i)
      && (NoBacktrack(s, i + 2, "거래"); OccursAt(s, "거래", i + 2 + RunLength(s, i + 2, IsSpace)))
    case AnyOf(words) => FirstWordAt(s, i, words).Some?
  }

  /** Every character of `s[from..to]` is whitespace. */
  predicate AllSpaces(s: string, from: nat, to: nat)
    requires from <= to <= |s|
  {
    forall k | from <= k < to :: IsSpace(s[k])
  }

  /** `\s*w` matches from index `from`: some whitespace, then `w`. */
  predicate SpacesThenAt(s: string, from: nat, w: string)
  {
    exists j | from <= j <= |s| :: AllSpaces(s, from, j) && OccursAt(s, w, j)
  }

  /** `\s*` followed by a word that does not start with whitespace matches only with the whole greedy run. */
  lemma NoBacktrack(s: string, from: nat, w: string)
    requires from <= |s| && w != [] && !IsSpace(w[0])
    ensures SpacesThenAt(s, from, w) <==> OccursAt(s, w, from + RunLength(s, from, IsSpace))
  {
    var n := RunLength(s, from, IsSpace);
    if SpacesThenAt(s, from, w) {
      var j :| from <= j <= |s| && AllSpaces(s, from, j) && OccursAt(s, w, j);
      RunStops(s, from, j, n, w);
    }
    if OccursAt(s, w, from + n) {
      assert AllSpaces(s, from, from + n);
    }
  }

  /** A word that does not start with whitespace can only follow the whole greedy run, so `\s*` never backtracks. */
  lemma RunStops(s: string, from: nat, j: nat, n: nat, w: string)
    requires from <= j <= |s| && AllSpaces(s, from, j) && OccursAt(s, w, j)
    requires w != [] && !IsSpace(w[0])
    requires from <= |s| && n == RunLength(s, from, IsSpace)
    ensures j == from + n
  {
    assert s[j] == w[0];
  }

  /** `match.group(1)` of a match at index `i`. */
  function Group(p: Pattern, s: string, i: nat): (g: string)
    requires MatchesAt(p, s, i)
    ensures p.AppSlug? ==> g != [] && OccursAt(s, g, i + 4) && forall k | 0 <= k < |g| :: IsSlugChar(g[k])
    ensures p.AppSlug? ==> i + 4 + |g| == |s| || !IsSlugChar(s[i + 4 + |g|])
    ensures p.TimeTrade? ==> OccursAt(s, g, i) && StartsWith(g, "시간") && EndsWith(g, "거래")
    ensures p.TimeTrade? ==> forall k | 2 <= k < |g| - 2 :: IsSpace(g[k])
    ensures p.AnyOf? ==> g in p.words && OccursAt(s, g, i)
    ensures p.AnyOf? ==> exists k | 0 <= k < |p.words| :: p.words[k] == g && forall j | 0 <= j < k :: !OccursAt(s, p.words[j], i)
  {
    match p
    case AppSlug => SlugSpan(s, i + 4); s[i + 4..i + 4 + RunLength(s, i + 4, IsSlugChar)]
    case TimeTrade => TimeTradeSpan(s, i); s[i..i + 4 + RunLength(s, i + 2, IsSpace)]
    case AnyOf(words) => FirstWordAt(s, i, words).value
  }

  /** The greedy `[a-z-]+` from a slug character: non-empty, all slug characters, not extendable. */
  lemma SlugSpan(s: string, from: nat)
    requires from < |s| && IsSlugChar(s[from])
    ensures var g := s[from..from + RunLength(s, from, IsSlugChar)];
      && g != [] && OccursAt(s, g, from) && (forall k | 0 <= k < |g| :: IsSlugChar(g[k]))
      && (from + |g| == |s| || !IsSlugChar(s[from + |g|]))
  {
    var g := s[from..from + RunLength(s, from, IsSlugChar)];
    assert forall k | 0 <= k < |g| :: g[k] == s[from + k];
  }

  /** The text of a 시간-거래 match: 시간, only whitespace, then 거래. */
  lemma TimeTradeSpan(s: string, i: nat)
    requires MatchesAt(TimeTrade, s, i)
    ensures var g := s[i..i + 4 + RunLength(s, i + 2, IsSpace)];
      && OccursAt(s, g, i) && StartsWith(g, "시간") && EndsWith(g, "거래")
      && forall k | 2 <= k < |g| - 2 :: IsSpace(g[k])
  {
    var g := s[i..i + 4 + RunLength(s, i + 2, IsSpace)];
    assert forall k | 0 <= k < |g| :: g[k] == s[i + k];
  }

  /** `re.search`: the leftmost index at or after `from` where the pattern matches. */
  function Search(p: Pattern, s: string, from: nat): (r: Option<nat>)
    requires from <= |s|
    ensures r.Some? ==> from <= r.value <= |s| && MatchesAt(p, s, r.value)
    ensures r.Some? ==> forall j :: from <= j < r.value ==> !MatchesAt(p, s, j)
    ensures r.None? ==> forall j :: from <= j <= |s| ==> !MatchesAt(p, s, j)
    decreases |s| - from
  {
    if MatchesAt(p, s, from) then Some(from)
    else if from == |s| then None
    else Search(p, s, from + 1)
  }

  /** The loop over `feature_patterns`: group 1 of the first pattern that matches anywhere. */
  function FirstFeature(patterns: seq<Pattern>, s: string): (r: Option<string>)
    ensures r.None? ==> forall k, j :: 0 <= k < |patterns| && 0 <= j <= |s| ==> !MatchesAt(patterns[k], s, j)
    ensures r.Some? ==> exists k, j :: 0 <= k < |patterns| && 0 <= j <= |s| && MatchesAt(patterns[k], s, j)
  {
    if patterns == [] then None
    else match Search(patterns[0], s, 0)
      case Some(i) => Some(Group(patterns[0], s, i))
      case None => FirstFeature(patterns[1..], s)
  }

  const FEATURE_MAP: map<string, string> := map[
    "시간 거래" := "time-slots",
    "로그인" := "auth",
    "회원가입" := "auth",
    "인증" := "auth",
    "프로필" := "profile",
    "설정" := "settings"
  ]

  /** `feature_map.get(feature, feature.replace(" ", "-"))`. */
  function FeatureName(feature: string): (name: string)
    ensures feature in FEATURE_MAP ==> name == FEATURE_MAP[feature]
    ensures feature !in FEATURE_MAP ==> |name| == |feature|
    ensures feature !in FEATURE_MAP ==>
      forall k | 0 <= k < |name| :: name[k] == (if feature[k] == ' ' then '-' else feature[k])
    ensures forall k | 0 <= k < |name| :: name[k] != ' ' 
  {
    if feature in FEATURE_MAP then FEATURE_MAP[feature] else ReplaceChar(feature, ' ', '-')
  }

  /** The feature directory a request addresses. */
  function ExtractFeaturePath(basePath: string, message: string, currentPath: Option<string>): (p: string)
    ensures currentPath.Some? ==> p == currentPath.value
    ensures currentPath.None? && FirstFeature(FEATURE_PATTERNS, message).None? ==> p == Join(basePath, "app")
  {
    if currentPath.Some? then currentPath.value
    else match FirstFeature(FEATURE_PATTERNS, message)
      case Some(feature) => Join(Join(basePath, "app"), FeatureName(feature))
      case None => Join(basePath, "app")
  }

  /** A message that mentions none of the patterns' anchors addresses the `app` root. */
  lemma {:induction false} NoPatternMeansAppRoot(basePath: string, message: string)
    requires !Contains(message, "app/") && !Contains(message, "시간")
    requires !ContainsAny(message, AUTH_WORDS) && !ContainsAny(message, PROFILE_WORDS)
    ensures ExtractFeaturePath(basePath, message, None) == Join(basePath, "app")
  {
    SkipsUnanchored(message);
    NoWordNoMatch(message, AUTH_WORDS);
    NoWordNoMatch(message, PROFILE_WORDS);
    assert FEATURE_PATTERNS[2..][0] == AnyOf(AUTH_WORDS) && FEATURE_PATTERNS[2..][1..] == FEATURE_PATTERNS[3..];
    assert FEATURE_PATTERNS[3..][0] == AnyOf(PROFILE_WORDS) && FEATURE_PATTERNS[3..][1..] == [];
  }

  /** An alternation whose words are all absent from the message matches nowhere in it. */
  lemma NoWordNoMatch(message: string, words: seq<string>)
    requires !ContainsAny(message, words)
    ensures Search(AnyOf(words), message, 0).None?
  {
    forall j | 0 <= j <= |message| ensures !MatchesAt(AnyOf(words), message, j) {
      forall k | 0 <= k < |words| ensures !OccursAt(message, words[k], j) {
        assert !Contains(message, words[k]);
      }
    }
  }

  /** When neither `app/<slug>` nor 시간-거래 matches, any of 로그인, 회원가입, 인증 selects `app/auth`. */
  lemma AuthWordsSelectAuth(basePath: string, message: string)
    requires Search(AppSlug, message, 0).None? && Search(TimeTrade, message, 0).None?
    requires ContainsAny(message, AUTH_WORDS)
    ensures ExtractFeaturePath(basePath, message, None) == Join(Join(basePath, "app"), "auth")
  {
    var word := AuthWordFound(message);
    SkipsFirstTwo(message);
    assert FirstFeature(FEATURE_PATTERNS, message) == Some(word);
    AuthWordsMapToAuth(word);
  }

  /** When neither of the first two patterns matches, the search goes on with the third. */
  lemma SkipsFirstTwo(message: string)
    requires Search(AppSlug, message, 0).None? && Search(TimeTrade, message, 0).None?
    ensures FirstFeature(FEATURE_PATTERNS, message) == FirstFeature(FEATURE_PATTERNS[2..], message)
  {
    assert FEATURE_PATTERNS[1..][0] == TimeTrade;
    assert FEATURE_PATTERNS[1..][1..] == FEATURE_PATTERNS[2..];
    assert FirstFeature(FEATURE_PATTERNS, message) == FirstFeature(FEATURE_PATTERNS[1..], message);
  }

  lemma AuthWordsMapToAuth(word: string)
    requires word in AUTH_WORDS
    ensures FeatureName(word) == "auth"
  {
    assert word == AUTH_WORDS[0] || word == AUTH_WORDS[1] || word == AUTH_WORDS[2];
  }

  /** The third pattern finds one of the authentication words. */
  lemma AuthWordFound(message: string) returns (word: string)
    requires ContainsAny(message, AUTH_WORDS)
    ensures word in AUTH_WORDS
    ensures FirstFeature(FEATURE_PATTERNS[2..], message) == Some(word)
  {
    word := WordFound(message, AUTH_WORDS);
    assert FEATURE_PATTERNS[2..][0] == AnyOf(AUTH_WORDS);
  }

  /** An alternation with one of its words in the message finds one of its words. */
  lemma WordFound(message: string, words: seq<string>) returns (word: string)
    requires ContainsAny(message, words)
    ensures Search(AnyOf(words), message, 0).Some?
    ensures word == Group(AnyOf(words), message, Search(AnyOf(words), message, 0).value) && word in words
  {
    var kw :| kw in words && Contains(message, kw);
    var i :| 0 <= i <= |message| - |kw| && OccursAt(message, kw, i);
    var k :| 0 <= k < |words| && words[k] == kw;
    assert MatchesAt(AnyOf(words), message, i);
    var found := Search(AnyOf(words), message, 0);
    word := Group(AnyOf(words), message, found.value);
  }

  /** The first two patterns find nothing in a message without their anchors. */
  lemma SkipsUnanchored(message: string)
    requires !Contains(message, "app/") && !Contains(message, "시간")
    ensures FirstFeature(FEATURE_PATTERNS, message) == FirstFeature(FEATURE_PATTERNS[2..], message)
  {
    NotAnchored(message);
    SkipsFirstTwo(message);
  }

  lemma NotAnchored(message: string)
    requires !Contains(message, "app/") && !Contains(message, "시간")
    ensures Search(AppSlug, message, 0).None? && Search(TimeTrade, message, 0).None?
  {
  }

  /**
   * Without an `app/<slug>` mention, a 시간-거래 match names the feature: exactly
   * "시간 거래" with one space maps to `time-slots`; any other spacing is kept,
   * spaces turned into dashes.
   */
  lemma TimeTradeSelected(basePath: string, message: string, i: nat)
    requires Search(AppSlug, message, 0).None?
    requires Search(TimeTrade, message, 0) == Some(i)
    ensures var g := Group(TimeTrade, message, i);
      ExtractFeaturePath(basePath, message, None)
        == Join(Join(basePath, "app"), if g == "시간 거래" then "time-slots" else ReplaceChar(g, ' ', '-'))
  {
    assert FEATURE_PATTERNS[1..][0] == TimeTrade;
    assert FirstFeature(FEATURE_PATTERNS, message) == FirstFeature(FEATURE_PATTERNS[1..], message);
    var g := Group(TimeTrade, message, i);
    assert FirstFeature(FEATURE_PATTERNS, message) == Some(g);
    TimeTradeName(g);
  }

  /** Of the mapped names, only "시간 거래" starts with 시간. */
  lemma TimeTradeName(g: string)
    requires StartsWith(g, "시간")
    ensures FeatureName(g) == if g == "시간 거래" then "time-slots" else ReplaceChar(g, ' ', '-')
  {
    if g != "시간 거래" {
      assert g !in FEATURE_MAP by {
        assert g[..2] == "시간";
      }
    }
  }

  /**
   * When none of the first three patterns matches, the leftmost 프로필 or 설정
   * decides: 프로필 selects `app/profile` and 설정 selects `app/settings`.
   */
  lemma ProfileWordsSelected(basePath: string, message: string, i: nat)
    requires Search(AppSlug, message, 0).None? && Search(TimeTrade, message, 0).None?
    requires Search(AnyOf(AUTH_WORDS), message, 0).None?
    requires Search(AnyOf(PROFILE_WORDS), message, 0) == Some(i)
    ensures ExtractFeaturePath(basePath, message, None)
      == Join(Join(basePath, "app"), if OccursAt(message, "프로필", i) then "profile" else "settings")
  {
    SkipsFirstTwo(message);
    assert FEATURE_PATTERNS[2..][0] == AnyOf(AUTH_WORDS) && FEATURE_PATTERNS[2..][1..] == FEATURE_PATTERNS[3..];
    assert FirstFeature(FEATURE_PATTERNS[2..], message) == FirstFeature(FEATURE_PATTERNS[3..], message);
    assert FEATURE_PATTERNS[3..][0] == AnyOf(PROFILE_WORDS);
    var word := Group(AnyOf(PROFILE_WORDS), message, i);
    assert FirstFeature(FEATURE_PATTERNS[3..], message) == Some(word);
    ProfileWordName(message, i, word);
  }

  /** The profile word found at `i` names `profile` for 프로필 and `settings` for 설정. */
  lemma ProfileWordName(message: string, i: nat, word: string)
    requires word in PROFILE_WORDS && OccursAt(message, word, i)
    ensures FeatureName(word) == if OccursAt(message, "프로필", i) then "profile" else "settings"
  {
    if word == PROFILE_WORDS[1] {
      assert !OccursAt(message, "프로필", i) by {
        assert message[i] == word[0];
      }
    }
  }

  /** The fourth pattern finds 프로필 or 설정. */
  lemma ProfileWordFound(message: string) returns (word: string)
    requires ContainsAny(message, PROFILE_WORDS)
    ensures word in PROFILE_WORDS
    ensures FirstFeature(FEATURE_PATTERNS[3..], message) == Some(word)
  {
    word := WordFound(message, PROFILE_WORDS);
    assert FEATURE_PATTERNS[3..][0] == AnyOf(PROFILE_WORDS);
  }

  /** An `app/<slug>` mention wins over everything else in the message and names the directory as written. */
  lemma AppSlugSelectsSlug(basePath: string, message: string, i: nat)
    requires Search(AppSlug, message, 0) == Some(i)
    ensures var slug := Group(AppSlug, message, i);
      && |slug| > 0 && (forall k :: 0 <= k < |slug| ==> IsSlugChar(slug[k]))
      && ExtractFeaturePath(basePath, message, None) == Join(Join(basePath, "app"), slug)
  {
    var slug := Group(AppSlug, message, i);
    assert slug[0] == message[i + 4];
    assert slug !in FEATURE_MAP;
    assert ReplaceChar(slug, ' ', '-') == slug;
  }
}
