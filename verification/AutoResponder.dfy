/** Keyword rules: the scoring matcher of the auto-responder against the simple matcher of the rules service. */
module AutoResponder {
  import opened Common

  datatype Rule = Rule(keywords: seq<string>, response: string)

  // ---------------------------------------------------------------------------------------------
  // One keyword
  // ---------------------------------------------------------------------------------------------

  predicate IsWordChar(c: char) {
    'a' <= c <= 'z' || 'A' <= c <= 'Z' || '0' <= c <= '9' || c == '_'
  }

  /** The regular expression \b at position i. */
  predicate Boundary(s: string, i: nat) {
    (0 < i <= |s| && IsWordChar(s[i - 1])) != (i < |s| && IsWordChar(s[i]))
  }

  predicate WordAt(s: string, i: nat, word: string) {
    IncludesAt(s, i, word) && Boundary(s, i) && Boundary(s, i + |word|)
  }

  predicate WordMatch(s: string, word: string) {
    exists i :: 0 <= i <= |s| && WordAt(s, i, word)
  }

  /** Between a and b, the word stands on its own: its neighbours differ from its ends in being word characters. */
  predicate StandsAlone(a: string, word: string, b: string)
    requires word != []
  {
    && ((a != [] && IsWordChar(a[|a| - 1])) <==> !IsWordChar(word[0]))
    && ((b != [] && IsWordChar(b[0])) <==> !IsWordChar(word[|word| - 1]))
  }

  lemma WordAtMeaning(a: string, word: string, b: string)
    requires word != []
    ensures WordAt(a + word + b, |a|, word) <==> StandsAlone(a, word, b)
  {
    var s, i, n := a + word + b, |a|, |word|;
    assert s[i..i + n] == word && s[i] == word[0] && s[i + n - 1] == word[n - 1];
    assert a != [] ==> s[i - 1] == a[i - 1];
    assert b != [] ==> s[i + n] == b[0];
  }

  lemma WordMatchMeaning(s: string, word: string)
    requires word != []
    ensures WordMatch(s, word) <==> exists a, b :: s == a + word + b && StandsAlone(a, word, b)
  {
    if WordMatch(s, word) {
      var i :| 0 <= i <= |s| && WordAt(s, i, word);
      var a, b := s[..i], s[i + |word|..];
      assert s == a + word + b;
      WordAtMeaning(a, word, b);
    }
    if a, b :| s == a + word + b && StandsAlone(a, word, b) {
      WordAtMeaning(a, word, b);
    }
  }

  /** How many of the first n characters differ. */
  function Mismatches(text: string, keyword: string, n: nat): nat
    requires n <= |text| && n <= |keyword|
  {
    if n == 0 then 0 else Mismatches(text, keyword, n - 1) + (if text[n - 1] != keyword[n - 1] then 1 else 0)
  }

  function Shorter(text: string, keyword: string): nat {
    if |text| < |keyword| then |text| else |keyword|
  }

  predicate Fuzzy(text: string, keyword: string) {
    |keyword| >= 3 && Mismatches(text, keyword, Shorter(text, keyword)) <= |keyword| / 4
  }

  lemma {:induction false} MismatchesGrow(text: string, keyword: string, m: nat, n: nat)
    requires m <= n <= |text| && n <= |keyword|
    ensures Mismatches(text, keyword, m) <= Mismatches(text, keyword, n)
    decreases n
  {
    if m < n { MismatchesGrow(text, keyword, m, n - 1); }
  }

  /** The places where two texts differ on their common length. */
  ghost function Differences(text: string, keyword: string, n: nat): set<nat>
    requires n <= |text| && n <= |keyword|
  {
    set i: nat | i < n && text[i] != keyword[i]
  }

  lemma {:induction false} MismatchesCount(text: string, keyword: string, n: nat)
    requires n <= |text| && n <= |keyword|
    ensures Mismatches(text, keyword, n) == |Differences(text, keyword, n)|
    decreases n
  {
    if n > 0 {
      MismatchesCount(text, keyword, n - 1);
      var d := Differences(text, keyword, n - 1);
      assert Differences(text, keyword, n) == if text[n - 1] != keyword[n - 1] then d + {n - 1} else d;
    }
  }

  /** `fuzzyMatch`, which stops at the first difference too many. */
  method FuzzyMatch(text: string, keyword: string) returns (ok: bool)
    ensures ok <==> Fuzzy(text, keyword)
    ensures ok <==>
      && |keyword| >= 3
      && |Differences(text, keyword, if |text| < |keyword| then |text| else |keyword|)| <= |keyword| / 4
  {
    MismatchesCount(text, keyword, Shorter(text, keyword));
    if |keyword| < 3 {
      return false;
    }
    var maxDifferences := |keyword| / 4;
    var differences := 0;
    var i := 0;
    while i < Shorter(text, keyword)
      invariant 0 <= i <= Shorter(text, keyword)
      invariant differences == Mismatches(text, keyword, i) <= maxDifferences
    {
      if text[i] != keyword[i] {
        differences := differences + 1;
        if differences > maxDifferences {
          MismatchesGrow(text, keyword, i + 1, Shorter(text, keyword));
          return false;
        }
      }
      i := i + 1;
    }
    return differences <= maxDifferences;
  }

  function KeywordScore(message: string, keyword: string): nat {
    if message == keyword then 100
    else if WordMatch(message, keyword) then 50
    else if Includes(message, keyword) then 25
    else if Fuzzy(message, keyword) then 10
    else 0
  }

  // ---------------------------------------------------------------------------------------------
  // Scoring matcher; norm is toLowerCase followed by trim
  // ---------------------------------------------------------------------------------------------

  function ScoreUpTo(message: string, keywords: seq<string>, norm: string -> string, n: nat): nat
    requires n <= |keywords|
  {
    if n == 0 then 0
    else ScoreUpTo(message, keywords, norm, n - 1) + KeywordScore(message, norm(keywords[n - 1]))
  }

  function Score(message: string, rule: Rule, norm: string -> string): nat {
    ScoreUpTo(message, rule.keywords, norm, |rule.keywords|)
  }

  /** `calculateRuleMatchScore`. */
  method CalculateRuleMatchScore(message: string, rule: Rule, norm: string -> string) returns (score: nat)
    ensures score == Score(message, rule, norm)
  {
    score := 0;
    for i := 0 to |rule.keywords|
      invariant score == ScoreUpTo(message, rule.keywords, norm, i)
    {
      var keyword := norm(rule.keywords[i]);
      if message == keyword {
        score := score + 100;
      } else if WordMatch(message, keyword) {
        score := score + 50;
      } else if Includes(message, keyword) {
        score := score + 25;
      } else {
        var fuzzy := FuzzyMatch(message, keyword);
        if fuzzy {
          score := score + 10;
        }
      }
    }
  }

  /** Rule i is the earliest of the highest score, and that score is positive. */
  ghost predicate IsBest(message: string, rules: seq<Rule>, norm: string -> string, i: nat) {
    && i < |rules|
    && Score(message, rules[i], norm) > 0
    && (forall j :: 0 <= j < |rules| ==> Score(message, rules[j], norm) <= Score(message, rules[i], norm))
    && (forall j :: 0 <= j < i ==> Score(message, rules[j], norm) < Score(message, rules[i], norm))
  }

  /** `findBestMatchingRule`, with message lower-cased and trimmed. */
  method FindBestMatchingRule(message: string, rules: seq<Rule>, norm: string -> string) returns (best: Option<nat>)
    ensures best.Some? ==> IsBest(message, rules, norm, best.value)
    ensures best.None? ==> forall j :: 0 <= j < |rules| ==> Score(message, rules[j], norm) == 0
  {
    best := None;
    var bestScore := 0;
    for i := 0 to |rules|
      invariant best.None? ==> bestScore == 0
      invariant best.Some? ==> best.value < i && bestScore == Score(message, rules[best.value], norm) > 0
      invariant best.Some? ==> forall j :: 0 <= j < best.value ==> Score(message, rules[j], norm) < bestScore
      invariant forall j :: 0 <= j < i ==> Score(message, rules[j], norm) <= bestScore
    {
      var score := CalculateRuleMatchScore(message, rules[i], norm);
      if score > bestScore {
        bestScore := score;
        best := Some(i);
      }
    }
  }

  // ---------------------------------------------------------------------------------------------
  // Simple matcher
  // ---------------------------------------------------------------------------------------------

  predicate HasExact(message: string, rule: Rule, norm: string -> string) {
    exists k :: 0 <= k < |rule.keywords| && message == norm(rule.keywords[k])
  }

  predicate HasContained(message: string, rule: Rule, norm: string -> string) {
    exists k :: 0 <= k < |rule.keywords| && Includes(message, norm(rule.keywords[k]))
  }

  function FirstRule(rules: seq<Rule>, p: Rule -> bool): (i: Option<nat>)
    ensures i.Some? ==> i.value < |rules| && p(rules[i.value]) && forall j :: 0 <= j < i.value ==> !p(rules[j])
    ensures i.None? ==> forall j :: 0 <= j < |rules| ==> !p(rules[j])
  {
    if rules == [] then None
    else if p(rules[0]) then Some(0)
    else
      var r := FirstRule(rules[1..], p);
      if r.Some? then Some(r.value + 1) else None
  }

  /** The first rule with the message for a keyword, or else the first with a keyword in the message. */
  lemma SimpleMatchMeaning(message: string, rules: seq<Rule>, norm: string -> string)
    ensures match SimpleMatch(message, rules, norm)
      case None => forall j :: 0 <= j < |rules| ==>
        !HasExact(message, rules[j], norm) && !HasContained(message, rules[j], norm)
      case Some(m) =>
        && m < |rules|
        && (if exists j :: 0 <= j < |rules| && HasExact(message, rules[j], norm)
            then HasExact(message, rules[m], norm) && forall j :: 0 <= j < m ==> !HasExact(message, rules[j], norm)
            else HasContained(message, rules[m], norm)
                 && forall j :: 0 <= j < m ==> !HasContained(message, rules[j], norm))
  {
  }

  /** `findMatchingRule`: the first exact match, else the first rule with a keyword in the message. */
  function SimpleMatch(message: string, rules: seq<Rule>, norm: string -> string): Option<nat> {
    var exact := FirstRule(rules, (r: Rule) => HasExact(message, r, norm));
    if exact.Some? then exact else FirstRule(rules, (r: Rule) => HasContained(message, r, norm))
  }

  // ---------------------------------------------------------------------------------------------
  // The two matchers compared
  // ---------------------------------------------------------------------------------------------

  lemma {:induction false} ScoreIncludes(message: string, keywords: seq<string>, norm: string -> string, n: nat, k: nat)
    requires k < n <= |keywords|
    ensures ScoreUpTo(message, keywords, norm, n) >= KeywordScore(message, norm(keywords[k]))
    decreases n
  {
    if k < n - 1 { ScoreIncludes(message, keywords, norm, n - 1, k); }
  }

  lemma ExactIsContained(message: string)
    ensures Includes(message, message)
  {
    assert IncludesAt(message, 0, message);
  }

  /** A rule that the simple matcher could return has a positive score. */
  lemma MatchedScores(message: string, rule: Rule, norm: string -> string)
    requires HasExact(message, rule, norm) || HasContained(message, rule, norm)
    ensures Score(message, rule, norm) >= 25
  {
    ExactIsContained(message);
    var k :| 0 <= k < |rule.keywords| && Includes(message, norm(rule.keywords[k]));
    ScoreIncludes(message, rule.keywords, norm, |rule.keywords|, k);
  }

  /** The auto-responder finds a rule whenever the simple matcher does. */
  lemma ScoringFindsWhenSimpleDoes(message: string, rules: seq<Rule>, norm: string -> string)
    requires SimpleMatch(message, rules, norm).Some?
    ensures exists i :: 0 <= i < |rules| && Score(message, rules[i], norm) > 0
  {
    MatchedScores(message, rules[SimpleMatch(message, rules, norm).value], norm);
  }

  ghost predicate AtMost(rules: seq<Rule>, n: nat) {
    forall j :: 0 <= j < |rules| ==> |rules[j].keywords| <= n
  }

  lemma SingleScore(message: string, rule: Rule, norm: string -> string)
    requires |rule.keywords| == 1
    ensures var k := norm(rule.keywords[0]);
      && Score(message, rule, norm) == KeywordScore(message, k)
      && (HasExact(message, rule, norm) <==> message == k)
      && (HasContained(message, rule, norm) <==> Includes(message, k))
  {
    assert ScoreUpTo(message, rule.keywords, norm, 1) == ScoreUpTo(message, rule.keywords, norm, 0)
      + KeywordScore(message, norm(rule.keywords[0]));
  }

  lemma WordIsContained(s: string, word: string)
    requires WordMatch(s, word)
    ensures Includes(s, word)
  {
    var i :| 0 <= i <= |s| && WordAt(s, i, word);
    assert IncludesAt(s, i, word);
  }

  lemma SingleScores(message: string, rules: seq<Rule>, norm: string -> string)
    requires AtMost(rules, 1)
    ensures forall j :: 0 <= j < |rules| ==>
      var s := Score(message, rules[j], norm);
      && s in {0, 10, 25, 50, 100}
      && (HasExact(message, rules[j], norm) <==> s == 100)
      && (HasContained(message, rules[j], norm) <==> s >= 25)
  {
    ExactIsContained(message);
    forall j | 0 <= j < |rules|
      ensures var s := Score(message, rules[j], norm);
        && s in {0, 10, 25, 50, 100}
        && (HasExact(message, rules[j], norm) <==> s == 100)
        && (HasContained(message, rules[j], norm) <==> s >= 25) {
      if rules[j].keywords != [] {
        SingleScore(message, rules[j], norm);
        var k := norm(rules[j].keywords[0]);
        if WordMatch(message, k) { WordIsContained(message, k); }
      }
    }
  }

  /** The scoring matcher chooses what the simple matcher chooses. */
  ghost predicate Agree(message: string, rules: seq<Rule>, norm: string -> string) {
    match SimpleMatch(message, rules, norm)
    case Some(m) => IsBest(message, rules, norm, m)
    case None => forall j :: 0 <= j < |rules| ==> Score(message, rules[j], norm) == 0
  }

  ghost predicate SomeExact(message: string, rules: seq<Rule>, norm: string -> string) {
    exists j :: 0 <= j < |rules| && HasExact(message, rules[j], norm)
  }

  lemma {:induction false} ScoreIsNone(message: string, keywords: seq<string>, norm: string -> string, n: nat)
    requires n <= |keywords|
    ensures ScoreUpTo(message, keywords, norm, n) == 0 <==>
      forall k :: 0 <= k < n ==> KeywordScore(message, norm(keywords[k])) == 0
    decreases n
  {
    if n > 0 { ScoreIsNone(message, keywords, norm, n - 1); }
  }

  /**
   Where the simple matcher finds nothing, the other finds nothing either exactly when no keyword is nearly the
   message.
   */
  lemma NothingFoundIff(message: string, rules: seq<Rule>, norm: string -> string)
    requires SimpleMatch(message, rules, norm).None?
    ensures Agree(message, rules, norm) <==> NothingNear(message, rules, norm)
  {
    ExactIsContained(message);
    forall j, k | 0 <= j < |rules| && 0 <= k < |rules[j].keywords|
      ensures KeywordScore(message, norm(rules[j].keywords[k]))
        == if Fuzzy(message, norm(rules[j].keywords[k])) then 10 else 0 {
      var keyword := norm(rules[j].keywords[k]);
      assert !HasContained(message, rules[j], norm);
      if WordMatch(message, keyword) { WordIsContained(message, keyword); }
    }
    forall j | 0 <= j < |rules|
      ensures Score(message, rules[j], norm) == 0 <==>
        forall k :: 0 <= k < |rules[j].keywords| ==> !Fuzzy(message, norm(rules[j].keywords[k])) {
      ScoreIsNone(message, rules[j].keywords, norm, |rules[j].keywords|);
    }
  }

  lemma OneKeywordIff(message: string, rules: seq<Rule>, norm: string -> string, m: nat)
    requires AtMost(rules, 1) && SimpleMatch(message, rules, norm) == Some(m)
    ensures rules[m].keywords != []
    ensures Agree(message, rules, norm) <==>
      || SomeExact(message, rules, norm)
      || WordMatch(message, norm(rules[m].keywords[0]))
      || forall j :: 0 <= j < |rules| && rules[j].keywords != [] ==> !WordMatch(message, norm(rules[j].keywords[0]))
  {
    SingleScores(message, rules, norm);
    forall j | 0 <= j < |rules| && rules[j].keywords != []
      ensures Score(message, rules[j], norm) == KeywordScore(message, norm(rules[j].keywords[0])) {
      SingleScore(message, rules[j], norm);
    }
  }

  /** The two ways in which the simple matcher's choice m holds against another rule. */
  ghost predicate Beats(message: string, rules: seq<Rule>, norm: string -> string, m: nat, j: nat)
    requires m < |rules| && j < |rules|
  {
    if j < m then Score(message, rules[j], norm) < Score(message, rules[m], norm)
    else Score(message, rules[j], norm) <= Score(message, rules[m], norm)
  }

  lemma BestIff(message: string, rules: seq<Rule>, norm: string -> string, m: nat)
    requires m < |rules| && Score(message, rules[m], norm) > 0
    ensures IsBest(message, rules, norm, m) <==> forall j :: 0 <= j < |rules| ==> Beats(message, rules, norm, m, j)
  {
    if forall j :: 0 <= j < |rules| ==> Beats(message, rules, norm, m, j) {
      forall j | 0 <= j < |rules| ensures Score(message, rules[j], norm) <= Score(message, rules[m], norm) {
        assert Beats(message, rules, norm, m, j);
      }
      forall j | 0 <= j < m ensures Score(message, rules[j], norm) < Score(message, rules[m], norm) {
        assert Beats(message, rules, norm, m, j);
      }
    }
  }

  /** No keyword of any rule is nearly the message. */
  ghost predicate NothingNear(message: string, rules: seq<Rule>, norm: string -> string) {
    forall j, k :: 0 <= j < |rules| && 0 <= k < |rules[j].keywords| ==> !Fuzzy(message, norm(rules[j].keywords[k]))
  }

  /**
   For any rules: where the simple matcher finds nothing, the matchers agree exactly when no keyword is
   nearly the message; where it chooses rule m, exactly when no earlier rule scores as much as m and no
   later one more. With at most one keyword a rule, the latter is so exactly when some keyword is the
   message, or the first keyword contained in it is a whole word of it, or none is.
   */
  lemma MatchersAgreeIff(message: string, rules: seq<Rule>, norm: string -> string)
    ensures Agree(message, rules, norm) <==>
      match SimpleMatch(message, rules, norm)
      case None => NothingNear(message, rules, norm)
      case Some(m) => forall j :: 0 <= j < |rules| ==> Beats(message, rules, norm, m, j)
    ensures AtMost(rules, 1) && SimpleMatch(message, rules, norm).Some? ==> (
      Agree(message, rules, norm) <==>
        var m := SimpleMatch(message, rules, norm).value;
        || SomeExact(message, rules, norm)
        || WordMatch(message, norm(rules[m].keywords[0]))
        || forall j :: 0 <= j < |rules| && rules[j].keywords != [] ==> !WordMatch(message, norm(rules[j].keywords[0])))
  {
    var s := SimpleMatch(message, rules, norm);
    if s.None? {
      NothingFoundIff(message, rules, norm);
    } else {
      MatchedScores(message, rules[s.value], norm);
      BestIff(message, rules, norm, s.value);
      if AtMost(rules, 1) { OneKeywordIff(message, rules, norm, s.value); }
    }
  }

  /** An exact match, where there is one, is always chosen by both matchers. */
  ghost predicate ExactIsChosen(n: nat, norm: string -> string) {
    forall message, rules :: AtMost(rules, n) && SomeExact(message, rules, norm) ==> Agree(message, rules, norm)
  }

  const PAIR: Rule := Rule(["a", "b"], "x")
  const PHRASE: Rule := Rule(["a b"], "y")

  lemma PairScores(norm: string -> string)
    requires norm("a") == "a" && norm("b") == "b" && norm("a b") == "a b"
    ensures Score("a b", PAIR, norm) == 100 && !HasExact("a b", PAIR, norm)
    ensures Score("a b", PHRASE, norm) == 100 && HasExact("a b", PHRASE, norm)
  {
    assert WordAt("a b", 0, "a") && WordAt("a b", 2, "b");
    var ks := PAIR.keywords;
    assert ScoreUpTo("a b", ks, norm, 0) == 0;
    assert ScoreUpTo("a b", ks, norm, 1) == 50;
    assert ScoreUpTo("a b", ks, norm, 2) == 100;
    SingleScore("a b", PHRASE, norm);
  }

  /**
   With at most n keywords a rule, and an exact match present, the matchers always agree exactly when n
   is at most 1: two words of a message count as much as the whole of it.
   */
  lemma ExactIsChosenIff(n: nat, norm: string -> string)
    requires norm("a") == "a" && norm("b") == "b" && norm("a b") == "a b"
    ensures ExactIsChosen(n, norm) <==> n <= 1
  {
    if n <= 1 {
      forall message, rules | AtMost(rules, n) && SomeExact(message, rules, norm) ensures Agree(message, rules, norm) {
        MatchersAgreeIff(message, rules, norm);
      }
    } else {
      var rules := [PAIR, PHRASE];
      PairScores(norm);
      assert HasExact("a b", rules[1], norm);
      assert AtMost(rules, n) && SomeExact("a b", rules, norm);
      assert SimpleMatch("a b", rules, norm) == Some(1);
      assert !IsBest("a b", rules, norm, 1);
    }
  }

  const WHOLE: Rule := Rule(["a b c"], "x")
  const PARTS: Rule := Rule(["a", "b", "c"], "y")

  lemma ScoreOfWhole(norm: string -> string)
    requires norm("a b c") == "a b c"
    ensures Score("a b c", WHOLE, norm) == 100 && HasExact("a b c", WHOLE, norm)
  {
    SingleScore("a b c", WHOLE, norm);
  }

  lemma ScoreOfParts(norm: string -> string)
    requires norm("a") == "a" && norm("b") == "b" && norm("c") == "c"
    ensures Score("a b c", PARTS, norm) == 150
  {
    var ks := PARTS.keywords;
    Words("a b c");
    assert ScoreUpTo("a b c", ks, norm, 0) == 0;
    assert ScoreUpTo("a b c", ks, norm, 1) == 50;
    assert ScoreUpTo("a b c", ks, norm, 2) == 100;
    assert ScoreUpTo("a b c", ks, norm, 3) == 150;
  }

  /** With several keywords a rule, an exact match can lose to a rule that merely contains more of them. */
  lemma ExactMatchCanLose()
    ensures exists message, rules: seq<Rule>, norm :: (
      |rules| == 2 && HasExact(message, rules[0], norm) && SimpleMatch(message, rules, norm) == Some(0)
      && IsBest(message, rules, norm, 1))
  {
    var norm := (s: string) => s;
    var rules := [WHOLE, PARTS];
    ScoreOfWhole(norm);
    ScoreOfParts(norm);
    assert SimpleMatch("a b c", rules, norm) == Some(0);
    assert IsBest("a b c", rules, norm, 1);
  }

  lemma Words(s: string)
    requires s == "a b c"
    ensures WordMatch(s, "a") && WordMatch(s, "b") && WordMatch(s, "c")
  {
    assert WordAt(s, 0, "a") && WordAt(s, 2, "b") && WordAt(s, 4, "c");
  }

  // ---------------------------------------------------------------------------------------------
  // Response history
  // ---------------------------------------------------------------------------------------------

  const MAX_RESPONSE_HISTORY: nat := 100

  function Newest<T>(s: seq<T>): seq<T> {
    if |s| > MAX_RESPONSE_HISTORY then s[|s| - MAX_RESPONSE_HISTORY..] else s
  }

  /** The end of s, all of it up to a hundred. */
  lemma NewestMeaning<T>(s: seq<T>)
    ensures exists older :: s == older + Newest(s)
    ensures |Newest(s)| == if |s| < 100 then |s| else 100
  {
    if |s| > MAX_RESPONSE_HISTORY {
      assert s == s[..|s| - MAX_RESPONSE_HISTORY] + Newest(s);
    } else {
      assert s == [] + Newest(s);
    }
  }

  class History<T> {
    var responseHistory: map<string, seq<T>>
    ghost var recorded: map<string, seq<T>>   // everything ever recorded

    constructor ()
      ensures Valid() && recorded == map[]
    {
      responseHistory, recorded := map[], map[];
    }

    /** Per account, the newest responses in the order they were recorded. */
    ghost predicate Valid()
      reads this
    {
      && responseHistory.Keys == recorded.Keys
      && forall a :: a in recorded ==> responseHistory[a] == Newest(recorded[a])
    }

    method RecordResponse(accountId: string, response: T)
      requires Valid()
      modifies this
      ensures Valid()
      ensures recorded == old(recorded)[accountId := (if accountId in old(recorded)
        then old(recorded)[accountId] else []) + [response]]
    {
      var history := if accountId in responseHistory then responseHistory[accountId] else [];
      history := history + [response];
      if |history| > MAX_RESPONSE_HISTORY {
        history := history[1..];
      }
      responseHistory := responseHistory[accountId := history];
      recorded := recorded[accountId := (if accountId in recorded then recorded[accountId] else []) + [response]];
    }
  }
}
