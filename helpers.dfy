/** The text utilities shared by the extension: emptiness and length checks, the user-facing
    error formatter and the language-guessing heuristic. */
module Helpers {
  import opened Wrappers
  import opened Strings

  // ----- isEmpty / isWithinCharLimit -----

  /** `isEmpty(text)`: `!text || text.trim() === ''`. */
  function IsEmpty(text: Option<string>): (r: bool)
    ensures r <==> text.None? || AllWhitespace(text.value)
  {
    !Truthy(text) || Trim(text.value) == ""
  }

  /** `isWithinCharLimit(text, maxLength)`: `!text || text.length <= maxLength`, where `length`
      counts UTF-16 code units. An absent or empty text is always within the limit, even a negative one. */
  function IsWithinCharLimit(text: Option<string>, maxLength: int): (r: bool)
    ensures !Truthy(text) ==> r
    ensures text.Some? && 2 * |text.value| <= maxLength ==> r
    ensures text.Some? && text.value != "" && |text.value| > maxLength ==> !r
    ensures text.Some? && InBasicPlane(text.value) ==> (r <==> text.value == "" || |text.value| <= maxLength)
  {
    if text.None? then true
    else Utf16LengthOfBasicPlane(text.value); text.value == "" || Utf16Length(text.value) <= maxLength
  }

  // ----- formatErrorMessage -----

  const UnknownErrorMessage: string := "不明なエラーが発生しました。"
  const NetworkErrorMessage: string := "ネットワーク接続に問題があります。インターネット接続を確認してください。"
  const InvalidApiKeyMessage: string := "APIキーが無効または期限切れです。設定で正しいAPIキーを入力してください。"
  const RateLimitMessage: string := "APIの利用制限に達しました。しばらく時間をおいてから再試行してください。"
  const GenericErrorPrefix: string := "エラーが発生しました: "

  predicate MentionsNetwork(m: string) {
    Contains(m, "network") || Contains(m, "Network")
  }

  predicate MentionsApiKey(m: string) {
    Contains(m, "API key") || Contains(m, "apiKey")
  }

  predicate MentionsRateLimit(m: string) {
    Contains(m, "rate limit") || Contains(m, "quota")
  }

  /** `formatErrorMessage(error)`, with `error` given by its message (`None` for a missing error).
      The tests are ordered: network first, then API key, then rate limit; anything else is shown
      verbatim after a fixed prefix. Each of the four fixed messages is produced exactly in its own case. */
  function FormatErrorMessage(error: Option<string>): (r: string)
    ensures r != ""
    ensures r == UnknownErrorMessage <==> error.None?
    ensures r == NetworkErrorMessage <==> error.Some? && MentionsNetwork(error.value)
    ensures r == InvalidApiKeyMessage <==>
      error.Some? && !MentionsNetwork(error.value) && MentionsApiKey(error.value)
    ensures r == RateLimitMessage <==>
      error.Some? && !MentionsNetwork(error.value) && !MentionsApiKey(error.value) && MentionsRateLimit(error.value)
    ensures error.Some? && !MentionsNetwork(error.value) && !MentionsApiKey(error.value) && !MentionsRateLimit(error.value)
      ==> |r| == |GenericErrorPrefix| + |error.value| && r[..|GenericErrorPrefix|] == GenericErrorPrefix && r[|GenericErrorPrefix|..] == error.value
  {
    match error
    case None => UnknownErrorMessage
    case Some(m) =>
      if MentionsNetwork(m) then NetworkErrorMessage
      else if MentionsApiKey(m) then InvalidApiKeyMessage
      else if MentionsRateLimit(m) then RateLimitMessage
      else
        assert (GenericErrorPrefix + m)[0] == 'エ';
        GenericErrorPrefix + m
  }

  /** Two different unclassified messages are shown differently: the formatter loses nothing on the generic path. */
  lemma GenericMessagesStayDistinct(m1: string, m2: string)
    requires !MentionsNetwork(m1) && !MentionsApiKey(m1) && !MentionsRateLimit(m1)
    requires !MentionsNetwork(m2) && !MentionsApiKey(m2) && !MentionsRateLimit(m2)
    requires m1 != m2
    ensures FormatErrorMessage(Some(m1)) != FormatErrorMessage(Some(m2))
  {
    var r1, r2 := FormatErrorMessage(Some(m1)), FormatErrorMessage(Some(m2));
    assert r1[|GenericErrorPrefix|..] == m1 && r2[|GenericErrorPrefix|..] == m2;
  }

  /** A message with none of the characters `n`, `N`, space, `K` and `q` mentions no keyword,
      so it is shown verbatim after the generic prefix. */
  lemma UnclassifiedWithout(m: string)
    requires forall i | 0 <= i < |m| :: m[i] !in "nN Kq"
    ensures FormatErrorMessage(Some(m)) == GenericErrorPrefix + m
  {
    assert 'n' !in m && 'N' !in m && ' ' !in m && 'K' !in m && 'q' !in m;
    NotContainedByMissingChar(m, "network", 0);
    NotContainedByMissingChar(m, "Network", 0);
    NotContainedByMissingChar(m, "API key", 3);
    NotContainedByMissingChar(m, "apiKey", 3);
    NotContainedByMissingChar(m, "rate limit", 4);
    NotContainedByMissingChar(m, "quota", 0);
  }

  // ----- detectLanguage -----

  const Languages: set<string> := {"jsx", "html", "javascript", "python", "cpp", "java", "unknown"}

  predicate MatchesJsx(code: string) {
    Contains(code, "import React") || Contains(code, "useState") || Contains(code, "useEffect") || Contains(code, "jsx")
  }

  predicate MatchesHtml(code: string) {
    Contains(code, "<html") || Contains(code, "<!DOCTYPE html")
  }

  predicate MatchesFunction(code: string) {
    Contains(code, "function") && Contains(code, "{") && Contains(code, "}")
  }

  predicate MatchesArrow(code: string) {
    Contains(code, "const") && Contains(code, "=>")
  }

  predicate MatchesModuleImport(code: string) {
    Contains(code, "import") && Contains(code, "from")
  }

  predicate MatchesClass(code: string) {
    Contains(code, "class") && Contains(code, "extends")
  }

  predicate MatchesPython(code: string) {
    Contains(code, "def ") && Contains(code, ":")
  }

  predicate MatchesCpp(code: string) {
    Contains(code, "#include") && (Contains(code, "<iostream>") || Contains(code, "<stdio.h>"))
  }

  predicate MatchesJavaMain(code: string) {
    Contains(code, "public static void main")
  }

  predicate MatchesJavaPackage(code: string) {
    Contains(code, "package ") && Contains(code, "import ")
  }

  predicate MatchesAnyRule(code: string) {
    MatchesJsx(code) || MatchesHtml(code) || MatchesFunction(code) || MatchesArrow(code)
    || MatchesModuleImport(code) || MatchesClass(code) || MatchesPython(code) || MatchesCpp(code)
    || MatchesJavaMain(code) || MatchesJavaPackage(code)
  }

  /** `detectLanguage(code)`: the first rule whose substring test passes decides; `'unknown'` otherwise. */
  function DetectLanguage(code: string): (r: string)
    ensures r in Languages
    ensures code == "" ==> r == "unknown"
    ensures code != "" && MatchesJsx(code) ==> r == "jsx"
    ensures r == "unknown" <==> code == "" || !MatchesAnyRule(code)
  {
    if code == "" then "unknown"
    else if MatchesJsx(code) then "jsx"
    else if MatchesHtml(code) then "html"
    else if MatchesFunction(code) then "javascript"
    else if MatchesArrow(code) then "javascript"
    else if MatchesModuleImport(code) then "javascript"
    else if MatchesClass(code) then "javascript"
    else if MatchesPython(code) then "python"
    else if MatchesCpp(code) then "cpp"
    else if MatchesJavaMain(code) then "java"
    else if MatchesJavaPackage(code) then "java"
    else "unknown"
  }

  /** Any code mentioning `import React` is classified as JSX, whatever else it contains. */
  lemma ImportReactIsJsx(code: string)
    requires Contains(code, "import React")
    ensures DetectLanguage(code) == "jsx"
  {
  }

  /** A classification rule as data: a language and the test that selects it. */
  datatype LanguageRule = LanguageRule(language: string, test: string -> bool)

  /** The rules of `detectLanguage`, in the order they are tried. */
  const LanguageRules: seq<LanguageRule> := [
    LanguageRule("jsx", MatchesJsx),
    LanguageRule("html", MatchesHtml),
    LanguageRule("javascript", MatchesFunction),
    LanguageRule("javascript", MatchesArrow),
    LanguageRule("javascript", MatchesModuleImport),
    LanguageRule("javascript", MatchesClass),
    LanguageRule("python", MatchesPython),
    LanguageRule("cpp", MatchesCpp),
    LanguageRule("java", MatchesJavaMain),
    LanguageRule("java", MatchesJavaPackage)
  ]

  /** A first-match classifier over a rule table: the language of the earliest rule whose test passes. */
  function FirstMatch(rules: seq<LanguageRule>, code: string): (r: string)
    ensures r == "unknown" || exists k | 0 <= k < |rules| :: rules[k].test(code) && r == rules[k].language
  {
    if rules == [] then "unknown"
    else if rules[0].test(code) then rules[0].language
    else FirstMatch(rules[1..], code)
  }

  /** The earliest passing rule decides: no later rule can change the outcome. */
  lemma {:induction false} FirstMatchIsEarliest(rules: seq<LanguageRule>, code: string, k: nat)
    requires k < |rules| && rules[k].test(code)
    requires forall j | 0 <= j < k :: !rules[j].test(code)
    ensures FirstMatch(rules, code) == rules[k].language
  {
    if k > 0 {
      FirstMatchIsEarliest(rules[1..], code, k - 1);
    }
  }

  /** When no rule passes, the classifier falls through to `'unknown'`. */
  lemma {:induction false} FirstMatchNone(rules: seq<LanguageRule>, code: string)
    requires forall j | 0 <= j < |rules| :: !rules[j].test(code)
    ensures FirstMatch(rules, code) == "unknown"
  {
    if rules != [] {
      FirstMatchNone(rules[1..], code);
    }
  }

  /** The `if` chain of `detectLanguage` is the first-match classifier over its rule table. */
  lemma DetectLanguageIsFirstMatch(code: string)
    requires code != ""
    ensures DetectLanguage(code) == FirstMatch(LanguageRules, code)
  {
    var t := LanguageRules;
    if MatchesJsx(code) { FirstMatchIsEarliest(t, code, 0); }
    else if MatchesHtml(code) { FirstMatchIsEarliest(t, code, 1); }
    else if MatchesFunction(code) { FirstMatchIsEarliest(t, code, 2); }
    else if MatchesArrow(code) { FirstMatchIsEarliest(t, code, 3); }
    else if MatchesModuleImport(code) { FirstMatchIsEarliest(t, code, 4); }
    else { LaterRulesMatch(code); }
  }

  /** The second half of the table, once the first five rules have failed. */
  lemma LaterRulesMatch(code: string)
    requires code != ""
    requires !MatchesJsx(code) && !MatchesHtml(code) && !MatchesFunction(code) && !MatchesArrow(code)
    requires !MatchesModuleImport(code)
    ensures DetectLanguage(code) == FirstMatch(LanguageRules, code)
  {
    var t := LanguageRules;
    if MatchesClass(code) { FirstMatchIsEarliest(t, code, 5); }
    else if MatchesPython(code) { FirstMatchIsEarliest(t, code, 6); }
    else if MatchesCpp(code) { FirstMatchIsEarliest(t, code, 7); }
    else if MatchesJavaMain(code) { FirstMatchIsEarliest(t, code, 8); }
    else if MatchesJavaPackage(code) { FirstMatchIsEarliest(t, code, 9); }
    else { FirstMatchNone(t, code); }
  }
}
