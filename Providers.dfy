/**
 * The component's three asynchronous helpers, `detectLanguage`,
 * `translateText` and `summarizeText`, around the browser's language
 * detector, translator and summarizer. Those browser objects are not
 * modelled: each is a function from its inputs to what it answered, so the
 * model records what text and which languages were handed to it.
 */
module Providers {
  import opened Wrappers
  import opened JsString
  import opened Messages

  /** What a provider call gave back: a value, or a rejection / exception. */
  datatype Reply<T> = Ok(value: T) | Failed

  /** The detector's top result: `detectedLanguage` and `confidence`. */
  datatype Detection = Detection(detectedLanguage: string, confidence: real)

  /**
   * The summarizer's answer: a summary, `capabilities().available === 'no'`,
   * or a failure anywhere in capabilities / create / ready / summarize.
   */
  datatype SummaryReply = Produced(summary: string) | Unavailable | SummaryFailed

  type Detector = string -> Reply<Detection>
  type Translator = (string, string, string) -> Reply<string>
  type Summarizer = string -> SummaryReply

  /**
   * What a helper did: `result` is the value it resolved to (None when it
   * threw, or, for detection, resolved to null), and `notice` is the error
   * banner it set on the way, if any.
   */
  datatype Call<T> = Call(result: Option<T>, notice: Option<string>)

  const EmptyInputError := "Input text cannot be empty."
  const DetectFailedError := "Failed to detect language. Please try again."
  const TranslateFailedError := "Failed to translate text. Please try again."
  const SummaryUnavailableError := "Summarization is not available on this device."
  const SummarizeFailedError := "Failed to summarize text. Please try again."

  /**
   * The stored language for a detection: the detector's code and confidence,
   * named from the language table when the code is supported and by the raw
   * code otherwise.
   */
  function Detected(d: Detection): (lang: Language)
    ensures lang.code == d.detectedLanguage && lang.confidence == d.confidence
    ensures d.detectedLanguage in LanguageMap ==> lang.name == LanguageMap[d.detectedLanguage]
    ensures d.detectedLanguage !in LanguageMap ==> lang.name == d.detectedLanguage
  {
    Language(d.detectedLanguage, DisplayName(d.detectedLanguage), d.confidence)
  }

  /**
   * `detectLanguage(text)`: a blank text is refused before the detector is
   * asked; otherwise it resolves to the detected language exactly when the
   * detector answers, and to null with the failure banner when it fails.
   */
  function DetectLanguage(text: string, detect: Detector): (c: Call<Language>)
    ensures IsBlank(text) ==> c == Call(None, Some(EmptyInputError))
    ensures !IsBlank(text) ==> (c.result.Some? <==> detect(text).Ok?)
    ensures !IsBlank(text) && detect(text).Ok? ==> c == Call(Some(Detected(detect(text).value)), None)
    ensures !IsBlank(text) && detect(text).Failed? ==> c.notice == Some(DetectFailedError)
  {
    if IsBlank(text) then Call(None, Some(EmptyInputError))
    else match detect(text)
      case Ok(d) => Call(Some(Detected(d)), None)
      case Failed => Call(None, Some(DetectFailedError))
  }

  /**
   * `translateText(text, sourceLang, targetLang)`: a blank text resolves to ""
   * with the empty-input banner; otherwise the translator is asked with the
   * source language (or 'auto' when that is empty), and the call throws
   * exactly when the translator fails.
   */
  function TranslateText(text: string, source: string, target: string, translate: Translator): (c: Call<string>)
    ensures IsBlank(text) ==> c == Call(Some(""), Some(EmptyInputError))
    ensures !IsBlank(text) ==> (c.result.None? <==> translate(text, if source == "" then "auto" else source, target).Failed?)
    ensures !IsBlank(text) && translate(text, if source == "" then "auto" else source, target).Ok?
            ==> c == Call(Some(translate(text, if source == "" then "auto" else source, target).value), None)
    ensures c.result.None? ==> c.notice == Some(TranslateFailedError)
  {
    if IsBlank(text) then Call(Some(""), Some(EmptyInputError))
    else match translate(text, if source == "" then "auto" else source, target)
      case Ok(t) => Call(Some(t), None)
      case Failed => Call(None, Some(TranslateFailedError))
  }

  /**
   * `summarizeText(text)`: a blank text, or a device without a summarizer,
   * resolves to "" with its banner; otherwise it resolves to the summary
   * without a banner, or throws exactly when the summarizer fails.
   */
  function SummarizeText(text: string, summarize: Summarizer): (c: Call<string>)
    ensures IsBlank(text) ==> c == Call(Some(""), Some(EmptyInputError))
    ensures !IsBlank(text) ==> (c.result.None? <==> summarize(text).SummaryFailed?)
    ensures !IsBlank(text) && summarize(text).Produced? ==> c == Call(Some(summarize(text).summary), None)
    ensures !IsBlank(text) && summarize(text).Unavailable? ==> c == Call(Some(""), Some(SummaryUnavailableError))
    ensures c.result.None? ==> c.notice == Some(SummarizeFailedError)
  {
    if IsBlank(text) then Call(Some(""), Some(EmptyInputError))
    else match summarize(text)
      case Unavailable => Call(Some(""), Some(SummaryUnavailableError))
      case Produced(s) => Call(Some(s), None)
      case SummaryFailed => Call(None, Some(SummarizeFailedError))
  }
}
