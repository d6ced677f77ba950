/**
 * The text-processing view's state and its event handlers. The React state
 * hooks become the fields of `Component`; each handler runs to completion
 * (its awaits are the provider calls, whose answers are parameters), so
 * `isProcessing` is raised on entry and cleared again on every way out, as
 * the handlers' `finally` blocks do.
 */
module TextProcessing {
  import opened Wrappers
  import opened JsString
  import opened Messages
  import opened Providers

  /** A sent text is summarized on the spot when it is English and longer than 150 characters. */
  const AutoSummaryCode := "en"
  const AutoSummaryThreshold := 150

  const SendFailedError := "An error occurred. Please try again."
  const NoTextForTranslation := "No text available for translation."
  const NoTextForSummary := "No text available for summarization."

  /**
   * `detected.code === 'en' && inputText.length > 150`, the length in UTF-16
   * code units: for text inside the Basic Multilingual Plane that is more
   * than 150 characters, and in any case more than 75.
   */
  predicate AutoSummarizes(code: string, text: string): (b: bool)
    ensures b ==> code == "en" && |text| > 75
    ensures (forall i | 0 <= i < |text| :: text[i] as int < 0x1_0000) ==> (b <==> code == "en" && |text| > 150)
  {
    code == AutoSummaryCode && Utf16Length(text) > AutoSummaryThreshold
  }

  class Component {
    var messages: seq<Message>
    var inputText: string
    var isProcessing: bool
    var error: string
    var showDropdown: map<MessageId, bool>

    /** Between events no handler is in flight and the log is well formed. */
    ghost predicate Valid()
      reads this
    {
      !isProcessing && WellFormed(messages)
    }

    /** The initial state of every hook. */
    constructor ()
      ensures Valid()
      ensures messages == [] && inputText == "" && error == "" && showDropdown == map[]
    {
      messages := [];
      inputText := "";
      isProcessing := false;
      error := "";
      showDropdown := map[];
    }

    /** Typing into the input box. */
    method EditInput(text: string)
      requires Valid()
      modifies this`inputText
      ensures Valid()
      ensures inputText == text
    {
      inputText := text;
    }

    /** The banner's Dismiss button. */
    method DismissError()
      requires Valid()
      modifies this`error
      ensures Valid()
      ensures error == ""
    {
      error := "";
    }

    /** The Translate button: shows or hides one message's language list. */
    method ToggleDropdown(id: MessageId)
      requires Valid()
      modifies this`showDropdown
      ensures Valid()
      ensures Shown(showDropdown, id) <==> !old(Shown(showDropdown, id))
      ensures forall k | k != id :: Shown(showDropdown, k) == old(Shown(showDropdown, k))
    {
      showDropdown := Toggled(showDropdown, id);
    }

    /**
     * `handleSendMessage`, with `freshId` standing for `Date.now()`. A blank
     * input only sets the banner. Otherwise the input is appended as a
     * pending message and the box is cleared; the message is settled with its
     * language when detection succeeds, and summarized first when it is long
     * English text. A failed detection, or a summarizer that throws, leaves
     * the message pending.
     */
    method SendMessage(freshId: MessageId, detect: Detector, summarize: Summarizer)
      requires Valid()
      requires forall m <- messages :: m.id != freshId
      modifies this`messages, this`inputText, this`isProcessing, this`error
      ensures Valid()
      ensures Evolves(old(messages), messages)
      ensures IsBlank(old(inputText)) ==>
                messages == old(messages) && inputText == old(inputText) && error == EmptyInputError
      ensures !IsBlank(old(inputText)) ==>
                inputText == "" && |messages| == |old(messages)| + 1
                && messages[..|old(messages)|] == old(messages)
                && messages[|old(messages)|].id == freshId
                && messages[|old(messages)|].text == old(inputText)
      // the new message settles exactly when detection succeeds and no auto summary threw
      ensures !IsBlank(old(inputText)) ==>
                var text := old(inputText);
                var sent := messages[|old(messages)|];
                (!sent.pending <==>
                   detect(text).Ok?
                   && !(AutoSummarizes(detect(text).value.detectedLanguage, text) && summarize(text).SummaryFailed?))
      ensures !IsBlank(old(inputText)) && messages[|old(messages)|].pending ==>
                messages[|old(messages)|] == PendingMessage(freshId, old(inputText))
      // a settled message carries the detected language, no translation, and a summary iff it is long English text
      ensures !IsBlank(old(inputText)) && !messages[|old(messages)|].pending ==>
                var text := old(inputText);
                var sent := messages[|old(messages)|];
                sent.language == Some(Detected(detect(text).value)) && sent.translations == map[]
                && (sent.summary.Some? <==> AutoSummarizes(sent.language.value.code, text))
                && (sent.summary.Some? ==>
                      sent.summary.value == if summarize(text).Produced? then summarize(text).summary else "")
      ensures !IsBlank(old(inputText)) && detect(old(inputText)).Failed? ==> error == DetectFailedError
      ensures (!IsBlank(old(inputText)) && detect(old(inputText)).Ok?
               && !AutoSummarizes(detect(old(inputText)).value.detectedLanguage, old(inputText))) ==>
                error == ""
      ensures (!IsBlank(old(inputText)) && detect(old(inputText)).Ok?
               && AutoSummarizes(detect(old(inputText)).value.detectedLanguage, old(inputText))) ==>
                error == match summarize(old(inputText))
                         case Produced(_) => ""
                         case Unavailable => SummaryUnavailableError
                         case SummaryFailed => SendFailedError
    {
      if IsBlank(inputText) {
        error := EmptyInputError;
        return;
      }
      isProcessing := true;
      error := "";
      var text := inputText;
      AppendKeepsWellFormed(messages, freshId, text);
      messages := messages + [PendingMessage(freshId, text)];
      inputText := "";

      var detected := DetectLanguage(text, detect);
      error := detected.notice.GetOr(error);
      if detected.result.None? {
        isProcessing := false;
        return;
      }
      var updated := Message(freshId, text, false, detected.result, None, map[]);
      if AutoSummarizes(detected.result.value.code, text) {
        var summary := SummarizeText(text, summarize);
        error := summary.notice.GetOr(error);
        if summary.result.None? {
          error := SendFailedError;
          isProcessing := false;
          return;
        }
        updated := updated.(summary := summary.result);
      }
      SettleLastKeepsWellFormed(messages, updated);
      EvolvesTransitive(old(messages), messages, ReplaceById(messages, freshId, updated));
      messages := ReplaceById(messages, freshId, updated);
      isProcessing := false;
    }

    /**
     * `handleTranslate`. A missing message, or one with empty text, only sets
     * the banner. Otherwise the translator is asked for the message's text
     * from its detected language (or 'auto') into `targetLang`; its answer is
     * stored under `targetLang`, overwriting any earlier one, and that
     * message's dropdown is hidden. A failed translation changes no message.
     */
    method Translate(id: MessageId, targetLang: string, translate: Translator)
      requires Valid()
      modifies this`messages, this`isProcessing, this`error, this`showDropdown
      ensures Valid()
      ensures SameCore(old(messages), messages) && Evolves(old(messages), messages)
      ensures var found := Find(old(messages), id);
              found.None? || found.value.text == "" ==>
                messages == old(messages) && showDropdown == old(showDropdown) && error == NoTextForTranslation
      ensures var found := Find(old(messages), id);
              found.Some? && found.value.text != "" ==>
                var reply := translate(found.value.text, SourceLanguage(found.value), targetLang);
                (reply.Failed? ==>
                   messages == old(messages) && showDropdown == old(showDropdown) && error == TranslateFailedError)
                && (reply.Ok? ==>
                      messages == AddTranslation(old(messages), id, targetLang, reply.value)
                      && showDropdown == Hidden(old(showDropdown), id) && error == "")
    {
      var found := Find(messages, id);
      if found.None? || found.value.text == "" {
        error := NoTextForTranslation;
        return;
      }
      var message := found.value;
      isProcessing := true;
      error := "";
      var source := SourceLanguage(message);
      var call := TranslateText(message.text, source, targetLang, translate);
      error := call.notice.GetOr(error);
      if call.result.Some? {
        TranslationKeepsCore(messages, id, targetLang, call.result.value);
        SameCoreKeepsWellFormed(messages, AddTranslation(messages, id, targetLang, call.result.value));
        messages := AddTranslation(messages, id, targetLang, call.result.value);
        showDropdown := Hidden(showDropdown, id);
      } else {
        error := TranslateFailedError;
      }
      isProcessing := false;
    }

    /**
     * `handleSummarize`. A missing message, or one with empty text, only sets
     * the banner. Otherwise the summarizer's answer overwrites that message's
     * summary; a device without a summarizer stores "" and says so in the
     * banner, and a failed summary changes no message.
     */
    method Summarize(id: MessageId, summarize: Summarizer)
      requires Valid()
      modifies this`messages, this`isProcessing, this`error
      ensures Valid()
      ensures SameCore(old(messages), messages) && Evolves(old(messages), messages)
      ensures var found := Find(old(messages), id);
              found.None? || found.value.text == "" ==>
                messages == old(messages) && error == NoTextForSummary
      ensures var found := Find(old(messages), id);
              found.Some? && found.value.text != "" ==>
                match summarize(found.value.text)
                case Produced(s) => messages == SetSummary(old(messages), id, s) && error == ""
                case Unavailable => messages == SetSummary(old(messages), id, "") && error == SummaryUnavailableError
                case SummaryFailed => messages == old(messages) && error == SummarizeFailedError
    {
      var found := Find(messages, id);
      if found.None? || found.value.text == "" {
        error := NoTextForSummary;
        return;
      }
      var message := found.value;
      isProcessing := true;
      error := "";
      var call := SummarizeText(message.text, summarize);
      error := call.notice.GetOr(error);
      if call.result.Some? {
        SummaryKeepsCore(messages, id, call.result.value);
        SameCoreKeepsWellFormed(messages, SetSummary(messages, id, call.result.value));
        messages := SetSummary(messages, id, call.result.value);
      } else {
        error := SummarizeFailedError;
      }
      isProcessing := false;
    }
  }
}
