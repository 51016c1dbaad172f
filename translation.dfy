/**
 * `translateText` (translationController.js, lines 13-80): an AI
 * translation wins, then DeepL when a key is configured, then the public
 * MyMemory service; each failure falls through to the next provider.
 */
module Translation {
  import opened Wrappers
  import opened Text

  /** `langMap`: the DeepL target codes and the ISO 639-1 codes MyMemory expects for them. */
  const LangMap: map<string, string> := map[
    "HI" := "hi", "TA" := "ta", "TE" := "te", "BN" := "bn", "MR" := "mr",
    "GU" := "gu", "KN" := "kn", "ML" := "ml", "PA" := "pa", "UR" := "ur",
    "OR" := "or", "AS" := "as", "EN-GB" := "en", "EN-US" := "en",
    "FR" := "fr", "ES" := "es", "DE" := "de", "IT" := "it", "PT-PT" := "pt",
    "PT-BR" := "pt", "RU" := "ru", "TR" := "tr", "JA" := "ja", "KO" := "ko",
    "ZH" := "zh", "AR" := "ar", "NL" := "nl", "PL" := "pl", "SV" := "sv"]

  const Required: string := "Text and target language are required"
  const Unavailable: string := "Translation service unavailable"
  const Failed: string := "Failed to translate text"

  /** The request body fields; `None` for an absent field. */
  datatype Request = Request(text: Option<string>, targetLang: Option<string>)

  /** What the providers answered. */
  datatype Replies = Replies(
    ai: Option<string>,                    // `translateWithAI`: `None` when unconfigured or failed
    deepl: Option<seq<string>>,            // `translations[*].text`; `None` when the call threw or held no list
    myMemory: MyMemoryReply)                      // the MyMemory call

  /** MyMemory's answer: a network error is not caught by a provider-level handler. */
  datatype MyMemoryReply = NetworkError | Answered(translatedText: Option<string>)

  datatype Provider = GroqAi | DeepL | MyMemory

  /** A call made to a provider, with the parameters that depend on the request. */
  datatype Call = AskAi(text: string, targetLang: string)
                | AskDeepL(text: string, targetLang: string)
                | AskMyMemory(q: string, langpair: string)

  datatype Response = Translated(translatedText: string, provider: Provider) | Error(status: nat, error: string)

  /** The response together with the provider calls made, in order. */
  datatype Outcome = Outcome(response: Response, calls: seq<Call>)

  predicate Truthy(s: Option<string>) { s.Some? && s.value != "" }

  /** `DEEPL_API_KEY && DEEPL_API_KEY !== 'YOUR_DEEPL_API_KEY'`. */
  predicate DeepLConfigured(key: string) { key != "" && key != "YOUR_DEEPL_API_KEY" }

  /** `langMap[targetLang] || targetLang.split('-')[0].toLowerCase()`. */
  function TargetCode(targetLang: string): string {
    if targetLang in LangMap && LangMap[targetLang] != "" then LangMap[targetLang]
    else ToLower(SplitOn(targetLang, '-')[0])
  }

  function LangPair(targetLang: string): string {
    "en|" + TargetCode(targetLang)
  }

  /** The specification of `translateText`. */
  function Translate(req: Request, deeplKey: string, replies: Replies): Outcome {
    if !Truthy(req.text) || !Truthy(req.targetLang) then Outcome(Error(400, Required), [])
    else
      var text, lang := req.text.value, req.targetLang.value;
      var aiCall := [AskAi(text, lang)];
      if Truthy(replies.ai) then Outcome(Translated(replies.ai.value, GroqAi), aiCall)
      else
        var deeplCalls := if DeepLConfigured(deeplKey) then [AskDeepL(text, lang)] else [];
        if DeepLConfigured(deeplKey) && replies.deepl.Some? && |replies.deepl.value| > 0 then
          Outcome(Translated(replies.deepl.value[0], DeepL), aiCall + deeplCalls)
        else
          var calls := aiCall + deeplCalls + [AskMyMemory(text, LangPair(lang))];
          match replies.myMemory
          case NetworkError => Outcome(Error(500, Failed), calls)
          case Answered(t) =>
            if Truthy(t) then Outcome(Translated(t.value, MyMemory), calls)
            else Outcome(Error(502, Unavailable), calls)
  }

  /* ---------------- properties ---------------- */

  /** A missing or empty field is rejected with 400 before any provider is called. */
  lemma MissingFieldRejected(req: Request, deeplKey: string, replies: Replies)
    ensures Translate(req, deeplKey, replies).response.Error? && Translate(req, deeplKey, replies).response.status == 400
            <==> !Truthy(req.text) || !Truthy(req.targetLang)
    ensures !Truthy(req.text) || !Truthy(req.targetLang) ==> Translate(req, deeplKey, replies).calls == []
  {
  }

  /**
   * Every mapped code translates by the table, never by the split fallback,
   * because no entry is empty: both English variants become `en`, both
   * Portuguese variants `pt`, Hindi `hi`, and so on.
   */
  lemma MappedCode(targetLang: string)
    requires targetLang in LangMap
    ensures TargetCode(targetLang) == LangMap[targetLang]
    ensures |TargetCode(targetLang)| == 2
  {
    assert forall k :: k in LangMap ==> |LangMap[k]| == 2;
  }

  /** An unmapped code is the lower-cased part before the first dash. */
  lemma UnmappedCode(targetLang: string)
    requires targetLang !in LangMap
    ensures var code := TargetCode(targetLang);
            '-' !in code && |code| <= |targetLang|
            && code == ToLower(targetLang[..|code|])
            && (|code| < |targetLang| ==> targetLang[|code|] == '-')
  {
    var head := SplitOn(targetLang, '-')[0];
    assert targetLang[..|head|] == head;
    forall i | 0 <= i < |head| ensures ToLower(head)[i] != '-' {
      assert head[i] != '-';
    }
  }

  /** No target code ever holds a dash, so the langpair is `en|` and a dash-free code. */
  lemma {:induction false} CodeHasNoDash(targetLang: string)
    ensures '-' !in TargetCode(targetLang)
    ensures LangPair(targetLang)[..3] == "en|"
  {
    if targetLang in LangMap {
      CodeInMapHasNoDash(targetLang);
    } else {
      UnmappedCode(targetLang);
    }
  }

  lemma CodeInMapHasNoDash(targetLang: string)
    requires targetLang in LangMap
    ensures '-' !in TargetCode(targetLang)
  {
    assert forall k :: k in LangMap ==> '-' !in LangMap[k];
  }

  /** The AI provider is always asked first, and its answer, when there is one, is final. */
  lemma AiFirst(req: Request, deeplKey: string, replies: Replies)
    requires Truthy(req.text) && Truthy(req.targetLang)
    ensures var o := Translate(req, deeplKey, replies);
            o.calls[0] == AskAi(req.text.value, req.targetLang.value)
            && (Truthy(replies.ai) ==> o.response == Translated(replies.ai.value, GroqAi) && |o.calls| == 1)
  {
  }

  /** DeepL answers only when the AI gave nothing and a DeepL key is configured. */
  lemma DeepLSecond(req: Request, deeplKey: string, replies: Replies)
    requires Truthy(req.text) && Truthy(req.targetLang)
    ensures var o := Translate(req, deeplKey, replies);
            (o.response.Translated? && o.response.provider == DeepL <==>
               !Truthy(replies.ai) && DeepLConfigured(deeplKey) && replies.deepl.Some? && |replies.deepl.value| > 0)
            && (AskDeepL(req.text.value, req.targetLang.value) in o.calls <==>
               !Truthy(replies.ai) && DeepLConfigured(deeplKey))
  {
  }

  /** MyMemory is asked, with the `en|<code>` langpair, exactly when neither earlier provider answered. */
  lemma MyMemoryLast(req: Request, deeplKey: string, replies: Replies)
    requires Truthy(req.text) && Truthy(req.targetLang)
    ensures var o := Translate(req, deeplKey, replies);
            AskMyMemory(req.text.value, LangPair(req.targetLang.value)) in o.calls <==>
              !Truthy(replies.ai) && !(DeepLConfigured(deeplKey) && replies.deepl.Some? && |replies.deepl.value| > 0)
  {
  }

  /** A 502 means every provider was reached and none answered; a 500 only comes from a MyMemory network error. */
  lemma FailureStatuses(req: Request, deeplKey: string, replies: Replies)
    ensures var o := Translate(req, deeplKey, replies);
            (o.response == Error(502, Unavailable) <==>
               Truthy(req.text) && Truthy(req.targetLang) && !Truthy(replies.ai)
               && !(DeepLConfigured(deeplKey) && replies.deepl.Some? && |replies.deepl.value| > 0)
               && replies.myMemory.Answered? && !Truthy(replies.myMemory.translatedText))
            && (o.response.Error? && o.response.status == 500 ==> replies.myMemory == NetworkError)
  {
  }
}
