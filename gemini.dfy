/** The request core of the explanation service client: prompt templates, response parsing,
    the retrying transport and the loading/error/result state of one translation hook. */
module Gemini {
  import opened Wrappers
  import opened Strings
  import Helpers

  /** The time after which one attempt is abandoned. The race itself is not modelled: a timer that
      fires first is one of the transport outcomes (`TimedOut`). */
  const RequestTimeoutMs: nat := 15000

  /** Retries after the first attempt. */
  const MaxRetries: nat := 2

  // ----- prompt templates -----

  const TypeHints: map<string, string> := map[
    "code" := "コードの目的、構造、注意点などを明確に説明してください。",
    "error" := "エラーが発生した理由とその対処法を説明してください。",
    "library" := "概要、使用方法、注意点などを簡潔に説明してください。",
    "auto" := "内容に応じて最適な形式で解説してください。"
  ]

  const LevelInstructions: map<string, string> := map[
    "simple" := "初心者にも理解できるよう、簡潔で平易な表現を用いてください。",
    "detailed" := "必要に応じて概念や背景情報を含め、丁寧に説明してください。"
  ]

  /** `typeHints[type] || typeHints['auto']`: an unknown content type gets the `auto` hint. */
  function TypeHint(typ: string): string {
    if typ in TypeHints then TypeHints[typ] else TypeHints["auto"]
  }

  /** `levelInstructions[level] || levelInstructions['simple']`: an unknown level gets the `simple` instruction. */
  function LevelInstruction(level: string): string {
    if level in LevelInstructions then LevelInstructions[level] else LevelInstructions["simple"]
  }


  /** The fixed wording of the two prompts: the opening sentence and the output guidelines of the
      explanation prompt, and the texts before the code and after the previous explanation in the
      regenerate prompt. The prompt builders and the hook are stated for any wording, so that no
      property below depends on the words themselves; `SourceWording` is the extension's own. */
  datatype PromptWording = PromptWording(
    scaftIntro: string, scaftGuidelines: string, regenerateIntro: string, regenerateTail: string)

  /** The wording `createUniversalScaftPrompt` and `createRegeneratePrompt` write out. */
  const SourceWording: PromptWording := PromptWording(
    @"あなたは優秀な技術解説者です。以下の入力について、「S-C-A-F-T」フレームワークに従い、静かで論理的な日本語で解説してください。",
    @"出力フォーマット:
1. 状況（Situation）  
   入力の背景や前提、何に関する内容かを簡潔に述べる。

2. 原因（Cause）  
   その内容が発生・構成されている技術的な理由を説明する。

3. 分析（Analysis）  
   中身の詳細や仕組み、構造、重要な要素などを整理して説明する。

4. 対策または特徴（Fix or Feature）  
   問題がある場合は解決策を。そうでなければ応用・注意点・実用例などを提示する。

5. 用語補足（Terminology）  
   専門用語や略語が含まれる場合、初心者向けに簡潔な一文で補足する（不要であれば省略可）。

制約:
- 入力内容の再掲は禁止
- 絵文字・装飾記号（#, *, ** など）は使用しない
- 出力は600文字以内を目安とする
- 口調はフラットに。事実と構造に基づいた説明を優先する
- 日本語で出力すること",
    @"
あなたは優秀な技術解説者です。以下のコードをより詳細に解説してください。前回の説明だけでは十分理解できなかったため、さらに明確な解説が必要です。

# 元のコード:
```
",
    @"

# 指示:
1. 前回の説明よりも詳細に、コードの目的、機能、重要な部分を解説してください
2. 専門用語がある場合は、それについても簡潔に説明を加えてください
3. コードの流れや処理の順序を明確にしてください
4. 可能であれば、コードの改善点や注意点も提案してください

出力フォーマット:
1. 状況（Situation）  
   入力の背景や前提、何に関する内容かを簡潔に述べる。

2. 原因（Cause）  
   その内容が発生・構成されている技術的な理由を説明する。

3. 分析（Analysis）  
   中身の詳細や仕組み、構造、重要な要素などを整理して説明する。

4. 対策または特徴（Fix or Feature）  
   問題がある場合は解決策を。そうでなければ応用・注意点・実用例などを提示する。

5. 用語補足（Terminology）  
   専門用語や略語が含まれる場合、初心者向けに簡潔な一文で補足する。

制約:
- 入力内容の再掲は禁止
- 絵文字・装飾記号（#, *, ** など）は使用しない
- 日本語で出力すること
    ")

  /** The delimiters around the user's text; the text itself is never escaped. */
  const ContentOpen: string := "===内容開始===\n"
  const ContentClose: string := "\n===内容終了===\n"

  /** The pieces of the explanation prompt that come before the user's text. */
  function ScaftHeaderParts(w: PromptWording, typ: string, level: string): seq<string> {
    ["\n", w.scaftIntro, "\n\n解説対象の種類: ", typ, "\n説明レベル: ", level, "\n\n",
     TypeHint(typ), "\n", LevelInstruction(level), "\n\n", w.scaftGuidelines, "\n\n"]
  }

  /** The fixed wording, the echoed type and level, and the hint and instruction they select. */
  function ScaftHeader(w: PromptWording, typ: string, level: string): (h: string)
    ensures Contains(h, TypeHint(typ)) && Contains(h, LevelInstruction(level))
  {
    ConcatPart(ScaftHeaderParts(w, typ, level), 7);
    ConcatPart(ScaftHeaderParts(w, typ, level), 9);
    Concat(ScaftHeaderParts(w, typ, level))
  }

  /** The user's text between the two delimiters. */
  function EmbedContent(text: string): string {
    ContentOpen + text + ContentClose
  }

  /** Recovers a text from its delimited form; the inverse of `EmbedContent`. */
  function UnwrapContent(s: string): (r: Option<string>)
    ensures r.Some? ==> EmbedContent(r.value) == s
  {
    if |s| >= |ContentOpen| + |ContentClose| && s[..|ContentOpen|] == ContentOpen
       && s[|s| - |ContentClose|..] == ContentClose
    then
      var t := s[|ContentOpen|..|s| - |ContentClose|];
      assert s == s[..|ContentOpen|] + t + s[|s| - |ContentClose|..];
      Some(t)
    else None
  }

  /** Delimiting and recovering a text gives the text back, whatever it contains. */
  lemma UnwrapEmbed(text: string)
    ensures UnwrapContent(EmbedContent(text)) == Some(text)
  {
    var s := EmbedContent(text);
    assert s[..|ContentOpen|] == ContentOpen;
    assert s[|s| - |ContentClose|..] == ContentClose;
    assert s[|ContentOpen|..|s| - |ContentClose|] == text;
  }

  /** `createUniversalScaftPrompt(text, type = 'auto', { level = 'simple' })`: never fails; an omitted
      type or level takes its default. The prompt is the header for that type and level followed by
      the delimited text, from which the text is recovered unchanged. */
  function UniversalPrompt(w: PromptWording, text: string, typ: Option<string>, level: Option<string>): (r: string)
    ensures var header := ScaftHeader(w, typ.GetOr("auto"), level.GetOr("simple"));
      |header| <= |r| && r[..|header|] == header && UnwrapContent(r[|header|..]) == Some(text)
    ensures Contains(r, text)
    ensures Contains(r, TypeHint(typ.GetOr("auto"))) && Contains(r, LevelInstruction(level.GetOr("simple")))
  {
    var header := ScaftHeader(w, typ.GetOr("auto"), level.GetOr("simple"));
    var body := EmbedContent(text);
    UnwrapEmbed(text);
    assert (header + body)[|header|..] == body;
    assert (header + body)[..|header|] == header;
    var hintAt :| 0 <= hintAt <= |header| - |TypeHint(typ.GetOr("auto"))| && OccursAt(header, TypeHint(typ.GetOr("auto")), hintAt);
    OccursExtendRight(header, body, TypeHint(typ.GetOr("auto")), hintAt);
    var instrAt :| 0 <= instrAt <= |header| - |LevelInstruction(level.GetOr("simple"))| && OccursAt(header, LevelInstruction(level.GetOr("simple")), instrAt);
    OccursExtendRight(header, body, LevelInstruction(level.GetOr("simple")), instrAt);
    OccursBetween(ContentOpen, text, ContentClose);
    OccursExtendLeft(header, body, text, |ContentOpen|);
    header + body
  }

  /** An unknown content type and an unknown level give the same prompt as `auto` and `simple`
      would, apart from the echoed names. */
  lemma UnknownTypeAndLevelFallBack(w: PromptWording, text: string, typ: string, level: string)
    requires typ !in TypeHints && level !in LevelInstructions
    ensures Contains(UniversalPrompt(w, text, Some(typ), Some(level)), TypeHints["auto"])
    ensures Contains(UniversalPrompt(w, text, Some(typ), Some(level)), LevelInstructions["simple"])
  {
  }

  const RegenerateMiddle: string := "\n```\n\n# 前回の説明:\n"

  function RegenerateParts(w: PromptWording, code: string, previousResult: string): seq<string> {
    [w.regenerateIntro, code, RegenerateMiddle, previousResult, w.regenerateTail]
  }

  /** `createRegeneratePrompt(code, previousResult)`: the original code and the previous explanation,
      each verbatim at a fixed place of the fixed wording. */
  function RegeneratePrompt(w: PromptWording, code: string, previousResult: string): (r: string)
    ensures |r| == |w.regenerateIntro| + |code| + |RegenerateMiddle| + |previousResult| + |w.regenerateTail|
    ensures OccursAt(r, code, |w.regenerateIntro|)
    ensures OccursAt(r, previousResult, |w.regenerateIntro| + |code| + |RegenerateMiddle|)
    ensures Contains(r, code) && Contains(r, previousResult)
  {
    var parts := RegenerateParts(w, code, previousResult);
    ConcatPart(parts, 1);
    ConcatPart(parts, 3);
    assert parts[..1] == [w.regenerateIntro];
    assert parts[..3] == [w.regenerateIntro, code, RegenerateMiddle];
    assert Concat(parts[..3]) == w.regenerateIntro + (code + RegenerateMiddle);
    assert Concat(parts[4..]) == w.regenerateTail;
    assert Concat(parts[3..]) == previousResult + Concat(parts[4..]);
    assert Concat(parts[2..]) == RegenerateMiddle + Concat(parts[3..]);
    assert Concat(parts[1..]) == code + Concat(parts[2..]);
    Concat(parts)
  }

  /** What a template literal shows for an optional string: `${null}` is the text `null`. */
  function TemplateText(o: Option<string>): string {
    match o
    case Some(s) => s
    case None => "null"
  }

  // ----- response parsing -----

  datatype Part = Part(text: Option<string>)
  datatype Content = Content(parts: Option<seq<Part>>)
  datatype Candidate = Candidate(content: Option<Content>)
  /** The consumed part of a `generateContent` response body: `{ candidates: [{ content: { parts: [{ text }] } }] }`. */
  datatype ResponseBody = ResponseBody(candidates: Option<seq<Candidate>>)

  const InvalidResponseMessage: string := "APIからの応答が不正です"
  const NoContentMessage: string := "APIからの応答にコンテンツがありません"
  const UnprocessableResponseMessage: string := "APIからの応答を処理できませんでした"
  const NoResultPlaceholder: string := "結果を取得できませんでした"

  /** The response has a first candidate whose content has a first part. */
  predicate HasContent(response: Option<ResponseBody>) {
    && response.Some? && response.value.candidates.Some? && |response.value.candidates.value| > 0
    && var content := response.value.candidates.value[0].content;
    && content.Some? && content.value.parts.Some? && |content.value.parts.value| > 0
  }

  function FirstPart(response: Option<ResponseBody>): Part
    requires HasContent(response)
  {
    response.value.candidates.value[0].content.value.parts.value[0]
  }

  /** The guarded body of `parseResponse`, before its `catch` replaces the message. */
  function ExtractText(response: Option<ResponseBody>): (r: Result<string>)
    ensures r.Ok? <==> HasContent(response)
  {
    if response.None? || response.value.candidates.None? || |response.value.candidates.value| == 0 then
      Err(InvalidResponseMessage)
    else
      var content := response.value.candidates.value[0].content;
      if content.None? || content.value.parts.None? || |content.value.parts.value| == 0 then
        Err(NoContentMessage)
      else
        var text := content.value.parts.value[0].text;
        Ok(if Truthy(text) then text.value else NoResultPlaceholder)
  }

  /** `parseResponse(response)`: fails, always with the same message, exactly when there is no first
      part; otherwise returns that part's text, or a fixed placeholder when it is missing or empty. */
  function ParseResponse(response: Option<ResponseBody>): (r: Result<string>)
    ensures r.Err? <==> !HasContent(response)
    ensures r.Err? ==> r.message == UnprocessableResponseMessage
    ensures r.Ok? ==> r.value != ""
    ensures r.Ok? ==> r.value == if Truthy(FirstPart(response).text) then FirstPart(response).text.value else NoResultPlaceholder
  {
    match ExtractText(response)
    case Ok(text) => Ok(text)
    case Err(_) => Err(UnprocessableResponseMessage)
  }

  /** The response the service gives for an answer `text`: one candidate with one part. */
  function SingleTextResponse(text: string): ResponseBody {
    ResponseBody(Some([Candidate(Some(Content(Some([Part(Some(text))]))))]))
  }

  /** Parsing the service's answer gives the answer back; an empty answer becomes the placeholder. */
  lemma ParseSingleTextResponse(text: string)
    ensures ParseResponse(Some(SingleTextResponse(text))) == Ok(if text == "" then NoResultPlaceholder else text)
  {
  }

  /** A body without candidates, such as `{ candidates: [] }`, is rejected. */
  lemma ParseRejectsNoCandidates(candidates: Option<seq<Candidate>>)
    requires candidates.None? || candidates.value == []
    ensures ParseResponse(Some(ResponseBody(candidates))) == Err(UnprocessableResponseMessage)
  {
  }

  // ----- fetchWithRetry -----

  /** What one attempt of the transport produced.
      `Delivered`: `response.ok`, and `response.json()` gave `body` (`None` for a JSON `null`).
      `Rejected`: not ok; `errorMessage` is `error.message` of the error body, `None` when the body
      has none or is not JSON. `Thrown`: `fetch` or `response.json()` threw. `TimedOut`: the timer won the race. */
  datatype Outcome =
    | Delivered(body: Option<ResponseBody>)
    | Rejected(status: nat, statusText: string, errorMessage: Option<string>)
    | Thrown(message: string)
    | TimedOut

  const TimeoutMessage: string := "APIリクエストがタイムアウトしました"
  const StatusErrorPrefix: string := "APIエラー ("

  /** What the `try` block of one attempt yields: the parsed body, or the message of the error it throws. */
  type AttemptResult = Result<Option<ResponseBody>>

  /** One attempt: an ok response gives its body; a response that is not ok throws the error body's
      `error.message`, or the status line when there is none; a failed `fetch`, a body that is not
      JSON and the timer throw their own messages. */
  function Attempt(o: Outcome): (r: AttemptResult)
    ensures r.Ok? <==> o.Delivered?
    ensures o.Delivered? ==> r.value == o.body
    ensures o.Rejected? && Truthy(o.errorMessage) ==> r == Err(o.errorMessage.value)
    ensures o.Rejected? && !Truthy(o.errorMessage) ==>
      && r.Err? && OccursAt(r.message, NatToString(o.status), |StatusErrorPrefix|)
      && r.message == StatusErrorPrefix + NatToString(o.status) + "): " + o.statusText
    ensures o.Thrown? ==> r == Err(o.message)
    ensures o.TimedOut? ==> r == Err(TimeoutMessage)
  {
    match o
    case Delivered(body) => Ok(body)
    case Rejected(status, statusText, errorMessage) =>
      if Truthy(errorMessage) then Err(errorMessage.value)
      else
        OccursBetween(StatusErrorPrefix, NatToString(status), "): " + statusText);
        assert StatusErrorPrefix + NatToString(status) + "): " + statusText
          == StatusErrorPrefix + NatToString(status) + ("): " + statusText);
        Err(StatusErrorPrefix + NatToString(status) + "): " + statusText)
    case Thrown(message) => Err(message)
    case TimedOut => Err(TimeoutMessage)
  }

  /** What every attempt of a transport would yield. */
  function Attempts(transport: seq<Outcome>): (a: seq<AttemptResult>)
    ensures |a| == |transport|
  {
    seq(|transport|, k requires 0 <= k < |transport| => Attempt(transport[k]))
  }

  /** The words whose presence in an error message marks a transient failure. */
  const RetryKeywords: seq<string> := ["timeout", "network", "429", "500", "503"]

  /** The retry classification, by substring of the error message. */
  predicate IsRetryable(message: string) {
    Contains(message, "timeout") || Contains(message, "network")
    || Contains(message, "429") || Contains(message, "500") || Contains(message, "503")
  }

  /** An error is retryable exactly when its message contains one of the keywords. */
  lemma IsRetryableByKeywords(message: string)
    ensures IsRetryable(message) <==> exists i | 0 <= i < |RetryKeywords| :: Contains(message, RetryKeywords[i])
  {
    assert RetryKeywords[0] == "timeout" && RetryKeywords[1] == "network" && RetryKeywords[2] == "429";
    assert RetryKeywords[3] == "500" && RetryKeywords[4] == "503";
  }

  /** The `catch` retries only while fewer than `MAX_RETRIES` retries have been made and the error is retryable. */
  predicate ShouldRetry(retryCount: nat, message: string) {
    retryCount < MaxRetries && IsRetryable(message)
  }

  function Pow2(n: nat): nat {
    if n == 0 then 1 else 2 * Pow2(n - 1)
  }

  /** The wait before retry number `retryCount + 1`: `1000 * 2^retryCount` milliseconds. */
  function Backoff(retryCount: nat): nat {
    1000 * Pow2(retryCount)
  }

  /** The waits start at one second and each is twice the one before. */
  lemma BackoffDoubles(retryCount: nat)
    ensures Backoff(0) == 1000
    ensures Backoff(retryCount + 1) == 2 * Backoff(retryCount)
  {
  }

  /** The `n` waits performed from attempt `i` on when every one of them is retried. */
  function Backoffs(i: nat, n: nat): (w: seq<nat>)
    ensures |w| == n && forall j | 0 <= j < n :: w[j] == Backoff(i + j)
    decreases n
  {
    if n == 0 then [] else [Backoff(i)] + Backoffs(i + 1, n - 1)
  }

  /** The result of `fetchWithRetry`: the body or the error that escaped, how many attempts were made,
      and the waits performed between them. */
  datatype FetchResult = FetchResult(response: AttemptResult, attempts: nat, waits: seq<nat>)

  /** `fetchWithRetry(url, options, retryCount)` as the source writes it: a recursion on the attempt
      counter. `attempts[k]` is what the `try` block of attempt `k` (0-based) yields; its `catch`
      retries an error while retries remain and the message names a transient failure. */
  function FetchFrom(attempts: seq<AttemptResult>, retryCount: nat): (r: FetchResult)
    requires retryCount <= MaxRetries < |attempts|
    ensures retryCount < r.attempts <= MaxRetries + 1
    ensures |r.waits| == r.attempts - 1 - retryCount
    decreases MaxRetries - retryCount
  {
    var a := attempts[retryCount];
    if a.Err? && ShouldRetry(retryCount, a.message) then
      var rest := FetchFrom(attempts, retryCount + 1);
      rest.(waits := [Backoff(retryCount)] + rest.waits)
    else FetchResult(a, retryCount + 1, [])
  }

  /** Attempt `k` failed with an error to retry while retries remained. */
  predicate Retried(attempts: seq<AttemptResult>, k: nat)
    requires k < |attempts|
  {
    attempts[k].Err? && ShouldRetry(k, attempts[k].message)
  }

  /** Attempt `retryCount` failed with an error to retry: the result is that of the next attempt,
      after one more wait. */
  lemma FetchFromRetries(attempts: seq<AttemptResult>, retryCount: nat)
    requires retryCount <= MaxRetries < |attempts|
    requires Retried(attempts, retryCount)
    ensures retryCount + 1 <= MaxRetries
    ensures FetchFrom(attempts, retryCount)
      == FetchFrom(attempts, retryCount + 1).(waits := [Backoff(retryCount)] + FetchFrom(attempts, retryCount + 1).waits)
  {
  }

  /** Attempt `retryCount` gave a body, or an error not to retry: it is the last one. */
  lemma FetchFromStops(attempts: seq<AttemptResult>, retryCount: nat)
    requires retryCount <= MaxRetries < |attempts|
    requires !Retried(attempts, retryCount)
    ensures FetchFrom(attempts, retryCount) == FetchResult(attempts[retryCount], retryCount + 1, [])
  {
  }

  /** The waits double from one second: the `j`-th wait from attempt `retryCount` on is `Backoff(retryCount + j)`. */
  lemma {:induction false} FetchFromWaits(attempts: seq<AttemptResult>, retryCount: nat)
    requires retryCount <= MaxRetries < |attempts|
    ensures FetchFrom(attempts, retryCount).waits == Backoffs(retryCount, |FetchFrom(attempts, retryCount).waits|)
    decreases MaxRetries - retryCount
  {
    if Retried(attempts, retryCount) {
      FetchFromRetries(attempts, retryCount);
      FetchFromWaits(attempts, retryCount + 1);
    } else {
      FetchFromStops(attempts, retryCount);
    }
  }

  /** Every attempt before the last failed with an error to retry while retries remained. */
  lemma {:induction false} FetchFromRetriedBeforeLast(attempts: seq<AttemptResult>, retryCount: nat)
    requires retryCount <= MaxRetries < |attempts|
    ensures forall j | retryCount <= j < FetchFrom(attempts, retryCount).attempts - 1 :: Retried(attempts, j)
    decreases MaxRetries - retryCount
  {
    if Retried(attempts, retryCount) {
      FetchFromRetries(attempts, retryCount);
      FetchFromRetriedBeforeLast(attempts, retryCount + 1);
    } else {
      FetchFromStops(attempts, retryCount);
    }
  }

  /** The last attempt's result is returned unchanged: its body, or its error, which was not one to retry. */
  lemma {:induction false} FetchFromLast(attempts: seq<AttemptResult>, retryCount: nat)
    requires retryCount <= MaxRetries < |attempts|
    ensures var r := FetchFrom(attempts, retryCount);
      r.response == attempts[r.attempts - 1] && !Retried(attempts, r.attempts - 1)
    decreases MaxRetries - retryCount
  {
    if Retried(attempts, retryCount) {
      FetchFromRetries(attempts, retryCount);
      FetchFromLast(attempts, retryCount + 1);
    } else {
      FetchFromStops(attempts, retryCount);
    }
  }

  /** The closed form of the recursion: when attempts `i` to `k - 1` are retried and attempt `k` is
      not, the result is attempt `k`'s after `k + 1` attempts, with the waits `Backoff(i)` to
      `Backoff(k - 1)`. */
  lemma {:induction false} FetchFromClosedForm(attempts: seq<AttemptResult>, i: nat, k: nat)
    requires i <= k <= MaxRetries < |attempts|
    requires forall j | i <= j < k :: Retried(attempts, j)
    requires !Retried(attempts, k)
    ensures FetchFrom(attempts, i) == FetchResult(attempts[k], k + 1, Backoffs(i, k - i))
    decreases k - i
  {
    if i == k {
      FetchFromStops(attempts, k);
    } else {
      assert Retried(attempts, i);
      FetchFromRetries(attempts, i);
      FetchFromClosedForm(attempts, i + 1, k);
    }
  }

  /** When every attempt fails with an error to retry, there are three attempts, waits of one and
      two seconds in between, and the third attempt's error escapes. */
  lemma RetryableFailuresExhaustRetries(attempts: seq<AttemptResult>)
    requires MaxRetries < |attempts|
    requires forall j | 0 <= j <= MaxRetries :: attempts[j].Err? && IsRetryable(attempts[j].message)
    ensures FetchFrom(attempts, 0).attempts == MaxRetries + 1 == 3
    ensures FetchFrom(attempts, 0).waits == [1000, 2000]
    ensures FetchFrom(attempts, 0).response == attempts[MaxRetries]
  {
    assert Retried(attempts, 0) && Retried(attempts, 1);
    FetchFromClosedForm(attempts, 0, 2);
    assert Backoff(1) == 2000;
  }

  /** An error that is not retryable escapes from the first attempt, without waiting. */
  lemma NonRetryableFailsAtOnce(attempts: seq<AttemptResult>)
    requires MaxRetries < |attempts|
    requires attempts[0].Err? && !IsRetryable(attempts[0].message)
    ensures FetchFrom(attempts, 0) == FetchResult(attempts[0], 1, [])
  {
  }

  /** An attempt that is not ok with status 503 and no error message in its body fails with an error to retry. */
  lemma UnavailableIsRetryable(statusText: string)
    ensures Attempt(Rejected(503, statusText, None)).Err?
    ensures IsRetryable(Attempt(Rejected(503, statusText, None)).message)
  {
    var m := Attempt(Rejected(503, statusText, None)).message;
    assert NatToString(503) == "503";
    assert OccursAt(m, "503", |StatusErrorPrefix|);
  }

  /** A service that keeps answering 503 gets three attempts, waits of one and two seconds in
      between, and the third attempt's error. */
  lemma AlwaysUnavailableMakesThreeAttempts(transport: seq<Outcome>, statusText: string)
    requires MaxRetries < |transport|
    requires forall j | 0 <= j < |transport| :: transport[j] == Rejected(503, statusText, None)
    ensures FetchFrom(Attempts(transport), 0).attempts == MaxRetries + 1 == 3
    ensures FetchFrom(Attempts(transport), 0).waits == [1000, 2000]
    ensures FetchFrom(Attempts(transport), 0).response == Attempt(Rejected(503, statusText, None))
  {
    UnavailableIsRetryable(statusText);
    RetryableFailuresExhaustRetries(Attempts(transport));
  }

  /** A message without an `e`, a `9` or a `0` mentions none of the five retry keywords. */
  lemma NotRetryableWithout(m: string)
    requires forall i | 0 <= i < |m| :: m[i] !in "e90"
    ensures !IsRetryable(m)
  {
    assert 'e' !in m && '9' !in m && '0' !in m;
    NotContainedByMissingChar(m, "timeout", 3);
    NotContainedByMissingChar(m, "network", 1);
    NotContainedByMissingChar(m, "429", 2);
    NotContainedByMissingChar(m, "500", 1);
    NotContainedByMissingChar(m, "503", 1);
  }

  /** The timeout message mentions none of the five retry keywords. */
  lemma TimeoutMessageNotRetryable()
    ensures !IsRetryable(TimeoutMessage)
  {
    NotRetryableWithout(TimeoutMessage);
  }

  /** The timeout error is never retried: its message is in Japanese and does not contain any of the
      five keywords, not even `timeout`. */
  lemma TimeoutIsNotRetried(transport: seq<Outcome>)
    requires MaxRetries < |transport| && transport[0] == TimedOut
    ensures FetchFrom(Attempts(transport), 0) == FetchResult(Err(TimeoutMessage), 1, [])
  {
    TimeoutMessageNotRetryable();
    FetchFromStops(Attempts(transport), 0);
  }

  /** When a 503 response's body carries an error message, that message replaces the status, so the
      attempt is retried only if the message itself mentions a keyword. */
  lemma ErrorBodyHidesStatus(transport: seq<Outcome>, statusText: string, message: string)
    requires MaxRetries < |transport| && transport[0] == Rejected(503, statusText, Some(message))
    requires message != "" && !IsRetryable(message)
    ensures FetchFrom(Attempts(transport), 0) == FetchResult(Err(message), 1, [])
  {
    FetchFromStops(Attempts(transport), 0);
  }

  /** `fetchWithRetry` as a loop over the attempt counter: attempt, and wait and try again while the
      error is one to retry. */
  method FetchWithRetry(transport: seq<Outcome>) returns (r: FetchResult)
    requires MaxRetries < |transport|
    ensures r == FetchFrom(Attempts(transport), 0)
  {
    ghost var attempts := Attempts(transport);
    var retryCount: nat := 0;
    var waits: seq<nat> := [];
    var attempt := Attempt(transport[0]);
    while attempt.Err? && ShouldRetry(retryCount, attempt.message)
      invariant retryCount <= MaxRetries && attempt == attempts[retryCount]
      invariant forall j | 0 <= j < retryCount :: Retried(attempts, j)
      invariant |waits| == retryCount && forall j | 0 <= j < retryCount :: waits[j] == Backoff(j)
      decreases MaxRetries - retryCount
    {
      waits := waits + [Backoff(retryCount)];
      retryCount := retryCount + 1;
      attempt := Attempt(transport[retryCount]);
    }
    FetchFromClosedForm(attempts, 0, retryCount);
    assert waits == Backoffs(0, retryCount);
    r := FetchResult(attempt, retryCount + 1, waits);
  }

  // ----- translateCode -----

  /** The `generationConfig` of the request body. */
  datatype GenerationConfig = GenerationConfig(temperature: real, topK: nat, topP: real, maxOutputTokens: nat)

  /** The parts of a request that depend on the call: the prompt and the generation settings. */
  datatype GenerationRequest = GenerationRequest(prompt: string, config: GenerationConfig)

  /** The request `translateCode` sends: the regenerate prompt over the current result, at temperature
      0.6, or the explanation prompt with default type and level, at temperature 0.4. */
  function RequestFor(w: PromptWording, code: string, isRegenerate: bool, previousResult: Option<string>): (q: GenerationRequest)
    ensures q.config.topK == 32 && q.config.topP == 0.95 && q.config.maxOutputTokens == 1000
    ensures q.config.temperature == if isRegenerate then 0.6 else 0.4
    ensures Contains(q.prompt, code)
    ensures isRegenerate ==> Contains(q.prompt, TemplateText(previousResult))
    ensures !isRegenerate ==> q.prompt == UniversalPrompt(w, code, None, None)
  {
    GenerationRequest(
      if isRegenerate then RegeneratePrompt(w, code, TemplateText(previousResult)) else UniversalPrompt(w, code, None, None),
      GenerationConfig(if isRegenerate then 0.6 else 0.4, 32, 0.95, 1000))
  }

  /** A JavaScript argument value, for the truthiness test on `isRegenerate`. */
  datatype JsValue = Undefined | Null | Bool(b: bool) | Number(n: int) | Str(s: string)

  predicate IsTruthy(v: JsValue) {
    match v
    case Undefined => false
    case Null => false
    case Bool(b) => b
    case Number(n) => n != 0
    case Str(s) => s != ""
  }

  /** The popup calls `translateCode(inputText, 'code', ...)`: the string `'code'` lands in the
      `isRegenerate` parameter, so every popup request is a regenerate request at temperature 0.6,
      and before any result exists its prompt shows the previous explanation as `null`. */
  lemma PopupCallRegenerates(w: PromptWording, code: string)
    ensures IsTruthy(Str("code"))
    ensures RequestFor(w, code, IsTruthy(Str("code")), None) == GenerationRequest(RegeneratePrompt(w, code, "null"), GenerationConfig(0.6, 32, 0.95, 1000))
  {
  }

  /** What `translateCode` returns: nothing (`undefined`), `null` after an error, or the text. */
  datatype Returned = ReturnedUndefined | ReturnedNull | ReturnedText(text: string)

  const MissingApiKeyMessage: string := "APIキーが設定されていません"

  /** The error shown for a missing key is the generic one: its message mentions `API` but not `API key`. */
  lemma MissingKeyShowsGenericError()
    ensures Helpers.FormatErrorMessage(Some(MissingApiKeyMessage)) == Helpers.GenericErrorPrefix + MissingApiKeyMessage
  {
    Helpers.UnclassifiedWithout(MissingApiKeyMessage);
  }

  /** A malformed response is likewise shown with the generic prefix. */
  lemma UnprocessableResponseShowsGenericError()
    ensures Helpers.FormatErrorMessage(Some(UnprocessableResponseMessage)) == Helpers.GenericErrorPrefix + UnprocessableResponseMessage
  {
    Helpers.UnclassifiedWithout(UnprocessableResponseMessage);
  }

  /** The state of one `useGemini` hook. */
  class GeminiHook {
    var loading: bool
    var error: Option<string>
    var result: Option<string>
    /** The wording of the prompts this hook builds. */
    const wording: PromptWording

    constructor(wording: PromptWording)
      ensures this.wording == wording && !loading && error == None && result == None
    {
      this.wording := wording;
      loading, error, result := false, None, None;
    }

    /** `translateCode(code, isRegenerate)`. `apiKey` is what the stored-key lookup gives (or the
        error it throws); `transport` is what each attempt of the request produces. `sent` is the
        request handed to the transport, `None` when no request was made. */
    method TranslateCode(code: string, isRegenerate: JsValue, apiKey: Result<Option<string>>, transport: seq<Outcome>)
      returns (returned: Returned, sent: Option<GenerationRequest>)
      requires MaxRetries < |transport|
      modifies this
      ensures code == "" ==> (returned == ReturnedUndefined && sent == None
        && loading == old(loading) && error == old(error) && result == old(result))
      ensures code != "" ==> !loading
      ensures code != "" && apiKey.Err? ==> (sent == None && returned == ReturnedNull
        && error == Some(Helpers.FormatErrorMessage(Some(apiKey.message)))
        && result == (if IsTruthy(isRegenerate) then old(result) else None))
      ensures code != "" && apiKey.Ok? && !Truthy(apiKey.value) ==> (sent == None && returned == ReturnedNull
        && error == Some(Helpers.FormatErrorMessage(Some(MissingApiKeyMessage)))
        && result == (if IsTruthy(isRegenerate) then old(result) else None))
      ensures code != "" && apiKey.Ok? && Truthy(apiKey.value) ==>
        && sent == Some(RequestFor(wording, code, IsTruthy(isRegenerate), old(result)))
        && var fetched := FetchFrom(Attempts(transport), 0).response;
        && (fetched.Err? ==> (returned == ReturnedNull && error == Some(Helpers.FormatErrorMessage(Some(fetched.message)))
              && result == (if IsTruthy(isRegenerate) then old(result) else None)))
        && (fetched.Ok? ==>
              var parsed := ParseResponse(fetched.value);
              && (parsed.Err? ==> (returned == ReturnedNull && error == Some(Helpers.FormatErrorMessage(Some(parsed.message)))
                    && result == (if IsTruthy(isRegenerate) then old(result) else None)))
              && (parsed.Ok? ==> returned == ReturnedText(parsed.value) && error == None && result == Some(parsed.value)))
    {
      sent := None;
      if code == "" {
        returned := ReturnedUndefined;
        return;
      }
      var regenerate := IsTruthy(isRegenerate);
      loading := true;
      error := None;
      if !regenerate {
        result := None;
      }
      if apiKey.Err? {
        error := Some(Helpers.FormatErrorMessage(Some(apiKey.message)));
        returned := ReturnedNull;
      } else if !Truthy(apiKey.value) {
        error := Some(Helpers.FormatErrorMessage(Some(MissingApiKeyMessage)));
        returned := ReturnedNull;
      } else {
        var request := RequestFor(wording, code, regenerate, result);
        sent := Some(request);
        var fetched := FetchWithRetry(transport);
        match fetched.response
        case Err(m) =>
          error := Some(Helpers.FormatErrorMessage(Some(m)));
          returned := ReturnedNull;
        case Ok(body) =>
          var parsed := ParseResponse(body);
          match parsed
          case Err(m) =>
            error := Some(Helpers.FormatErrorMessage(Some(m)));
            returned := ReturnedNull;
          case Ok(text) =>
            result := Some(text);
            returned := ReturnedText(text);
      }
      loading := false;
    }

    /** `clearResult()`. */
    method ClearResult()
      modifies this
      ensures result == None && loading == old(loading) && error == old(error)
    {
      result := None;
    }

    /** `clearError()`. */
    method ClearError()
      modifies this
      ensures error == None && loading == old(loading) && result == old(result)
    {
      error := None;
    }
  }
}
